/** What holds in every reachable state of the executor, and along every run. */
module ExecutorRuns {
  import opened Quantities
  import opened Profiles
  import opened Stores
  import opened Accounting
  import opened Admission
  import opened Planning
  import opened Reservations
  import opened Plans
  import opened ExecutorState
  import opened ExecutorInvariants
  import opened ExecutorDispatch

  /** Every step of every thread keeps the invariant: conservation of tasks, agreement of
      futures with places, exact retry accounting, and worker/task matching. */
  lemma ApplyKeepsInv(cfg: Config, s: State, a: Action)
    requires Inv(cfg, s)
    ensures Inv(cfg, Apply(cfg, s, a))
  {
    hide Inv;
    match a
    case ASubmit(id, origin, memoryHint, vramHint, now) =>
      if id !in s.futures { SubmitKeepsInv(cfg, s, id, origin, memoryHint, vramHint, now); }
    case ACancel(id) => CancelKeepsInv(cfg, s, id);
    case ADispatch(env) => DispatchKeepsInv(cfg, s, env);
    case ATakeResult(id, worker) => TakeResultKeepsInv(cfg, s, id, worker);
    case AFinishResult(id, ok, observation) => FinishResultKeepsInv(cfg, s, id, ok, observation);
    case ATakeTimeout(id) => TakeTimeoutKeepsInv(cfg, s, id);
    case AFinishTimeout(id) => FinishTimeoutKeepsInv(cfg, s, id);
    case ACheckWorkers(gone) => CheckWorkersKeepsInv(cfg, s, gone);
    case ATakeLost(worker) => TakeLostKeepsInv(cfg, s, worker);
    case AFinishLost(id, exitCode) => FinishLostKeepsInv(cfg, s, id, exitCode);
    case AFailPending => ExpelKeepsInv(cfg, s, Ids(s.pending));
    case AStopAll => StopAllKeepsInv(cfg, s);
  }

  // ----- what is in flight -----

  /** No more in flight than workers; an exclusive task is alone; one cold task an identity. */
  ghost predicate FlightOk(cfg: Config, ws: seq<Work>) {
    && |ws| <= cfg.maxWorkers
    && (forall v, w :: v in ws && w in ws && v.exclusive ==> w.id == v.id)
    && (forall v, w :: v in ws && w in ws && v.cold && w.cold && v.identity == w.identity ==> w.id == v.id)
  }

  lemma FewerInFlight(cfg: Config, ws: seq<Work>, ids: set<string>)
    requires FlightOk(cfg, ws) && NoDup(ws)
    ensures FlightOk(cfg, Without(ws, ids))
  {
    WithoutKeepsDistinct(ws, ids);
  }

  /** Nothing joins what is in flight; at most some tasks leave. */
  ghost predicate OnlyLands(before: seq<Work>, after: seq<Work>) {
    exists ids: set<string> :: after == Without(before, ids)
  }

  lemma StayingLands(ws: seq<Work>)
    ensures OnlyLands(ws, ws)
  {
    WithoutNothing(ws);
  }

  lemma {:induction false} WithoutNothing(ws: seq<Work>)
    ensures Without(ws, {}) == ws
  {
    if ws != [] {
      WithoutNothing(ws[..|ws| - 1]);
      assert ws == ws[..|ws| - 1] + [ws[|ws| - 1]];
    }
  }

  /** Nothing but the pool and the retiring workers changes. */
  ghost predicate OnlyPoolChanges(s: State, s': State) {
    s' == s.(workers := s'.workers, retiring := s'.retiring)
  }

  lemma PoolStepsKeepTasks(s: State, k: Worker)
    ensures OnlyPoolChanges(s, Retire(s, k)) && OnlyPoolChanges(s, PutBack(s, k)) && OnlyPoolChanges(s, Poison(s, k))
  {
    hide Replace, WithoutWorkers;
  }

  lemma OnlyPoolMeansSameTasks(s: State, s': State)
    requires OnlyPoolChanges(s, s')
    ensures SameTasks(s, s') && s'.store == s.store && s'.dead == s.dead
  {
  }

  lemma FreeWorkerKeepsTasks(cfg: Config, s: State, id: string, workerId: int)
    ensures var s' := FreeWorker(cfg, s, id, workerId);
      OnlyPoolChanges(s, s') && SameTasks(s, s') && s'.store == s.store && s'.dead == s.dead
  {
    hide FindWorker, Retire, PutBack, ShouldRecycle, SameTasks, OnlyPoolChanges;
    var worker := FindWorker(s.workers, workerId);
    if worker.Some? {
      var freed := worker.value.(current := None, tasksCompleted := worker.value.tasksCompleted + 1);
      PoolStepsKeepTasks(s, freed);
    }
    assert OnlyPoolChanges(s, s) by { Reflexive(s); }
    OnlyPoolMeansSameTasks(s, FreeWorker(cfg, s, id, workerId));
  }

  lemma Reflexive(s: State)
    ensures OnlyPoolChanges(s, s)
  {
  }

  lemma PoppedLands(s: State, w: Work, held: Held)
    ensures OnlyLands(s.inFlight, Popped(s, w, held).inFlight)
  {
  }

  /** Only what is in flight, held, dropped or being buried changes. */
  ghost predicate OnlyFlightChanges(s: State, s': State) {
    s' == s.(inFlight := s'.inFlight, held := s'.held, dropped := s'.dropped, dead := s'.dead)
  }

  lemma FlightChangesAdd(s: State, t: State, u: State)
    requires OnlyFlightChanges(s, t) && OnlyFlightChanges(t, u)
    ensures OnlyFlightChanges(s, u)
  {
  }

  /** Losing a worker touches neither the store nor the pool. */
  lemma TakeLostFrame(s: State, worker: int)
    ensures var t := TakeLost(s, worker); OnlyFlightChanges(s, t) && t.store == s.store && t.workers == s.workers
  {
    hide OnlyFlightChanges, Buried, Popped, Dropping, FindWorker, Find;
    var found := FindWorker(s.dead, worker);
    var lost := if found.Some? && found.value.current.Some? then Find(s.inFlight, found.value.current.value) else None;
    NothingChanges(s);
    if found.Some? {
      var buried := Buried(s, found.value);
      BuriedFrame(s, found.value);
      if lost.Some? {
        LeavingFrame(buried, lost.value, Held(lost.value, ByCrash));
        FlightChangesAdd(s, buried, Popped(buried, lost.value, Held(lost.value, ByCrash)));
        FlightChangesAdd(s, buried, Dropping(buried, lost.value));
      }
    }
    FlightIsApart(s, TakeLost(s, worker));
  }

  lemma NothingChanges(s: State)
    ensures OnlyFlightChanges(s, s)
  {
  }

  lemma FlightIsApart(s: State, t: State)
    requires OnlyFlightChanges(s, t)
    ensures t.store == s.store && t.workers == s.workers
  {
  }

  lemma BuriedFrame(s: State, k: Worker)
    ensures OnlyFlightChanges(s, Buried(s, k))
  {
    hide WithoutWorkers;
  }

  lemma LeavingFrame(s: State, w: Work, held: Held)
    ensures OnlyFlightChanges(s, Popped(s, w, held)) && OnlyFlightChanges(s, Dropping(s, w))
  {
    hide Without;
  }

  lemma TakeResultLands(cfg: Config, s: State, id: string, worker: int)
    ensures OnlyLands(s.inFlight, TakeResult(cfg, s, id, worker).inFlight)
  {
    hide FreeWorker, OnlyLands, OnlyPoolChanges;
    StayingLands(s.inFlight);
    FreeWorkerKeepsTasks(cfg, s, id, worker);
    var found := Find(s.inFlight, id);
    if found.Some? {
      var w := found.value;
      var ignored := s.(inFlight := Without(s.inFlight, {id}), finished := s.finished + {id});
      PoppedLands(s, w, Held(w, ByResult));
      FreeWorkerKeepsTasks(cfg, Popped(s, w, Held(w, ByResult)), id, worker);
      FreeWorkerKeepsTasks(cfg, ignored, id, worker);
    }
  }

  lemma TakeTimeoutLands(cfg: Config, s: State, id: string)
    ensures OnlyLands(s.inFlight, TakeTimeout(cfg, s, id).inFlight)
  {
    hide Popped, Poison, PutBack, OnlyLands, OnlyPoolChanges;
    StayingLands(s.inFlight);
    var found := Find(s.inFlight, id);
    if found.Some? {
      var w := found.value;
      var worker := if w.worker == None then None else FindWorker(s.workers, w.worker.value);
      var held := Held(if cfg.killOnTimeout && w.worker.Some? then w else w.(resultIgnored := true), ByTimeout);
      var popped := Popped(s, w, held);
      PoppedLands(s, w, Held(if cfg.killOnTimeout && w.worker.Some? then w else w.(resultIgnored := true), ByTimeout));
      if worker.Some? {
        PoolStepsKeepTasks(popped, worker.value);
        OnlyPoolMeansSameTasks(popped, Poison(popped, worker.value));
        PoolStepsKeepTasks(popped, worker.value.(current := None));
        OnlyPoolMeansSameTasks(popped, PutBack(popped, worker.value.(current := None)));
      }
    }
  }

  lemma TakeLostLands(s: State, worker: int)
    ensures OnlyLands(s.inFlight, TakeLost(s, worker).inFlight)
  {
    hide WithoutWorkers, Without, OnlyLands;
    StayingLands(s.inFlight);
    var found := FindWorker(s.dead, worker);
    if found.Some? && found.value.current.Some? {
      var lost := Find(s.inFlight, found.value.current.value);
      if lost.Some? {
        PoppedLands(s, lost.value, Held(lost.value, ByCrash));
      }
    }
  }

  /** Every step but dispatch leaves the in-flight table alone, or takes one task out. */
  lemma OnlyDispatchLaunches(cfg: Config, s: State, a: Action)
    requires !a.ADispatch?
    ensures OnlyLands(s.inFlight, Apply(cfg, s, a).inFlight)
  {
    hide OnlyLands, TakeResult, TakeTimeout, TakeLost, Without;
    StayingLands(s.inFlight);
    match a
    case ATakeResult(id, worker) => TakeResultLands(cfg, s, id, worker);
    case ATakeTimeout(id) => TakeTimeoutLands(cfg, s, id);
    case ATakeLost(worker) => TakeLostLands(s, worker);
    case _ =>
  }

  /** What a dispatch cycle plans from, once the queue has been prepared. */
  function Seen(cfg: Config, s: State, env: Env): State {
    Surveyed(Prepared(cfg, s, env), env)
  }

  lemma SeenKeepsInv(cfg: Config, s: State, env: Env)
    requires Inv(cfg, s)
    ensures Inv(cfg, Seen(cfg, s, env))
  {
    hide Inv;
    PreparedKeepsInv(cfg, s, env);
    SurveyedKeepsInv(cfg, Prepared(cfg, s, env), env);
  }

  lemma InputsAreSane(cfg: Config, s: State, env: Env)
    requires Inv(cfg, s)
    ensures AllSized(Entries(s.pending)) && NonNegative(RunningEntries(s.inFlight, env.now))
    ensures forall w :: w in s.pending ==> SaneEstimate(w.estimate)
  {
    forall w | w in s.pending ensures SaneEstimate(w.estimate) {
      assert w.id in Ids(s.pending) && TaskOk(cfg, s, w.id);
    }
  }

  /** A plan is about tasks of the queue it was made for. */
  lemma PlanIsAboutQueue(cfg: Config, s: State, env: Env)
    requires Inv(cfg, s)
    ensures AboutQueue(s.pending, PlanOf(cfg, s, env).admitted)
  {
    var running, cap := RunningEntries(s.inFlight, env.now), CapacityFor(cfg, s, env.snapshot);
    var admitted := PlanOf(cfg, s, env).admitted;
    InputsAreSane(cfg, s, env);
    if AnyExclusive(running) {
      ExclusiveRunsAlone(Entries(s.pending), running, cap);
    } else {
      var at := PlanRefinesFifo(Entries(s.pending), running, cap);
      forall i | 0 <= i < |admitted| ensures InQueue(s.pending, admitted[i].task) {
        assert EntryOf(s.pending[at[i]]) == admitted[i].task;
      }
    }
  }

  /** A dispatch cycle appends to what is in flight exactly what it sent for its plan. */
  lemma DispatchShips(cfg: Config, s: State, env: Env) returns (sent: seq<Work>)
    requires Inv(cfg, s)
    ensures var s' := Dispatch(cfg, s, env);
      || (s'.inFlight == s.inFlight && sent == [])
      || (&& s'.inFlight == ObserveAll(env.readings, s.inFlight) + sent
          && SentFrom(sent, PlanOf(cfg, Seen(cfg, s, env), env).admitted) && StartedAt(sent, env.now))
  {
    hide Inv, PlanOf, ShipAll, SentFrom, AboutQueue;
    sent := [];
    if s.pending != [] && Prepared(cfg, s, env).pending != [] {
      var seen := Seen(cfg, s, env);
      var plan := PlanOf(cfg, seen, env);
      SeenKeepsInv(cfg, s, env);
      PlanIsAboutQueue(cfg, seen, env);
      IndexIsIrrelevant(cfg, seen, plan.rr);
      sent := ShipAllShips(cfg, seen.(nextGpu := plan.rr), plan.admitted, env);
    }
  }

  // ----- dispatch keeps the flight rules -----

  /** Cold placements of a plan have different identities. */
  ghost predicate ColdDistinct(admitted: seq<Placement>) {
    forall i, j :: 0 <= i < j < |admitted| && admitted[i].task.cold && admitted[j].task.cold ==>
      admitted[i].task.identity != admitted[j].task.identity
  }

  lemma {:induction false} SentColdDistinct(sent: seq<Work>, admitted: seq<Placement>)
    requires SentFrom(sent, admitted) && ColdDistinct(admitted)
    ensures forall p, q :: 0 <= p < q < |sent| && sent[p].cold && sent[q].cold ==> sent[p].identity != sent[q].identity
    decreases |admitted|
  {
    if admitted != [] {
      var n := |admitted| - 1;
      var pre := admitted[..n];
      if SentFrom(sent, pre) {
        SentColdDistinct(sent, pre);
      } else {
        var front := sent[..|sent| - 1];
        SentColdDistinct(front, pre);
        SentFromMembers(front, pre);
        forall p | 0 <= p < |front| && sent[p].cold && sent[|front|].cold
          ensures sent[p].identity != sent[|front|].identity
        {
          assert front[p] in front;
          var i :| 0 <= i < |pre| && SentFor(front[p], pre[i]);
          assert admitted[i] == pre[i];
        }
      }
    }
  }

  /** What the planner promises about a plan made from state `s`. */
  lemma PlanPromises(cfg: Config, s: State, env: Env)
    requires Inv(cfg, s) && (forall w :: w in s.pending ==> w.identity.Some?)
    ensures var admitted := PlanOf(cfg, s, env).admitted;
      && (admitted != [] ==> |s.inFlight| + |admitted| <= cfg.maxWorkers)
      && (admitted != [] ==> forall w :: w in s.inFlight ==> !w.exclusive)
      && (forall j :: 0 <= j < |admitted| && admitted[j].task.exclusive ==> s.inFlight == [] && |admitted| == 1)
      && ColdDistinct(admitted)
      && (forall j, w :: 0 <= j < |admitted| && w in s.inFlight && admitted[j].task.cold ==>
            w.identity != admitted[j].task.identity)
  {
    var queue, running := Entries(s.pending), RunningEntries(s.inFlight, env.now);
    var cap := CapacityFor(cfg, s, env.snapshot);
    var admitted := PlanOf(cfg, s, env).admitted;
    InputsAreSane(cfg, s, env);
    PlanWithinWorkers(queue, running, cap);
    ExclusiveRunsAlone(queue, running, cap);
    PlanIsAboutQueue(cfg, s, env);
    forall w | w in s.inFlight ensures RunningOf(w, env.now) in running {
      var i :| 0 <= i < |s.inFlight| && s.inFlight[i] == w;
      assert running[i] == RunningOf(w, env.now);
    }
    forall j | 0 <= j < |admitted| && admitted[j].task.cold
      ensures forall r :: r in running ==> r.identity != admitted[j].task.identity
      ensures forall i :: 0 <= i < |admitted| && i != j && admitted[i].task.cold ==>
        admitted[i].task.identity != admitted[j].task.identity
    {
      assert InQueue(s.pending, admitted[j].task);
      OneColdTaskPerIdentity(queue, running, cap, j);
    }
  }

  lemma SeenIsStamped(cfg: Config, s: State, env: Env)
    ensures forall w :: w in Seen(cfg, s, env).pending ==> w.identity.Some?
    ensures Seen(cfg, s, env).inFlight == ObserveAll(env.readings, s.inFlight)
  {
  }

  predicate AlikeInFlight(v: Work, w: Work) {
    w.id == v.id && w.exclusive == v.exclusive && w.cold == v.cold && w.identity == v.identity
  }

  lemma ObservedKeepsFlight(cfg: Config, readings: map<string, (real, real)>, ws: seq<Work>)
    requires FlightOk(cfg, ws)
    ensures FlightOk(cfg, ObserveAll(readings, ws))
  {
    var seen := ObserveAll(readings, ws);
    forall v | v in seen
      ensures exists w :: w in ws && AlikeInFlight(w, v)
    {
      var i :| 0 <= i < |seen| && seen[i] == v;
      assert ws[i] in ws;
    }
  }

  lemma DispatchKeepsFlight(cfg: Config, s: State, env: Env)
    requires Inv(cfg, s) && FlightOk(cfg, s.inFlight)
    ensures FlightOk(cfg, Dispatch(cfg, s, env).inFlight)
  {
    hide Inv, PlanOf, Dispatch, SentFrom, FlightOk, Seen;
    var sent := DispatchShips(cfg, s, env);
    if Dispatch(cfg, s, env).inFlight != s.inFlight {
      var seen := Seen(cfg, s, env);
      var admitted := PlanOf(cfg, seen, env).admitted;
      SeenKeepsInv(cfg, s, env);
      SeenIsStamped(cfg, s, env);
      ObservedKeepsFlight(cfg, env.readings, s.inFlight);
      PlanPromises(cfg, seen, env);
      JoinedFlight(cfg, seen.inFlight, sent, admitted);
    }
  }

  lemma JoinedFlight(cfg: Config, before: seq<Work>, sent: seq<Work>, admitted: seq<Placement>)
    requires FlightOk(cfg, before) && SentFrom(sent, admitted) && ColdDistinct(admitted)
    requires admitted != [] ==> |before| + |admitted| <= cfg.maxWorkers && forall w :: w in before ==> !w.exclusive
    requires forall j :: 0 <= j < |admitted| && admitted[j].task.exclusive ==> before == [] && |admitted| == 1
    requires forall j, w :: 0 <= j < |admitted| && w in before && admitted[j].task.cold ==>
      w.identity != admitted[j].task.identity
    ensures FlightOk(cfg, before + sent)
  {
    SentFromMembers(sent, admitted);
    SentColdDistinct(sent, admitted);
    forall v | v in sent
      ensures v.exclusive ==> before == [] && |sent| == 1
      ensures forall w :: w in before && v.cold ==> w.identity != v.identity
    {
      var i :| 0 <= i < |admitted| && SentFor(v, admitted[i]);
      assert v.exclusive == admitted[i].task.exclusive && v.cold == admitted[i].task.cold;
    }
  }

  lemma LandingKeepsFlight(cfg: Config, before: seq<Work>, after: seq<Work>)
    requires FlightOk(cfg, before) && NoDup(before) && OnlyLands(before, after)
    ensures FlightOk(cfg, after)
  {
    var ids: set<string> :| after == Without(before, ids);
    FewerInFlight(cfg, before, ids);
  }

  lemma ApplyKeepsFlight(cfg: Config, s: State, a: Action)
    requires Inv(cfg, s) && FlightOk(cfg, s.inFlight)
    ensures FlightOk(cfg, Apply(cfg, s, a).inFlight)
  {
    hide TasksOk, WorkersOk, FlightOk, OnlyLands;
    if a.ADispatch? {
      DispatchKeepsFlight(cfg, s, a.env);
    } else {
      OnlyDispatchLaunches(cfg, s, a);
      hide Apply;
      LandingKeepsFlight(cfg, s.inFlight, Apply(cfg, s, a).inFlight);
    }
  }

  // ----- runs -----

  /** The state after a run from `s`: any interleaving of the critical sections of all threads. */
  function RunFrom(cfg: Config, s: State, acts: seq<Action>): State {
    if acts == [] then s
    else Apply(cfg, RunFrom(cfg, s, acts[..|acts| - 1]), acts[|acts| - 1])
  }

  function StateAfter(cfg: Config, acts: seq<Action>): State {
    RunFrom(cfg, INITIAL, acts)
  }

  lemma {:induction false} RunKeepsInv(cfg: Config, s: State, acts: seq<Action>)
    requires Inv(cfg, s)
    ensures Inv(cfg, RunFrom(cfg, s, acts))
    ensures FlightOk(cfg, s.inFlight) ==> FlightOk(cfg, RunFrom(cfg, s, acts).inFlight)
  {
    if acts != [] {
      hide Inv, FlightOk, Apply;
      var mid := RunFrom(cfg, s, acts[..|acts| - 1]);
      RunKeepsInv(cfg, s, acts[..|acts| - 1]);
      ApplyKeepsInv(cfg, mid, acts[|acts| - 1]);
      if FlightOk(cfg, mid.inFlight) { ApplyKeepsFlight(cfg, mid, acts[|acts| - 1]); }
    }
  }

  lemma EveryStateIsSound(cfg: Config, acts: seq<Action>)
    requires cfg.maxWorkers >= 1
    ensures Inv(cfg, StateAfter(cfg, acts)) && FlightOk(cfg, StateAfter(cfg, acts).inFlight)
  {
    InitiallyInv(cfg);
    RunKeepsInv(cfg, INITIAL, acts);
  }

  /** How often a task stands in a table. */
  function Occurrences(ws: seq<Work>, id: string): nat {
    if ws == [] then 0
    else Occurrences(ws[..|ws| - 1], id) + (if ws[|ws| - 1].id == id then 1 else 0)
  }

  lemma {:induction false} OccursOnce(ws: seq<Work>, id: string)
    requires NoDup(ws)
    ensures Occurrences(ws, id) == if id in Ids(ws) then 1 else 0
  {
    if ws != [] {
      var pre, last := ws[..|ws| - 1], ws[|ws| - 1];
      LastIsNew(ws);
      OccursOnce(pre, id);
      hide NoDup, Ids;
    }
  }

  lemma LastIsNew(ws: seq<Work>)
    requires NoDup(ws) && ws != []
    ensures var pre, last := ws[..|ws| - 1], ws[|ws| - 1];
      NoDup(pre) && last.id !in Ids(pre) && Ids(ws) == Ids(pre) + {last.id}
  {
    var pre, last := ws[..|ws| - 1], ws[|ws| - 1];
    assert ws == pre + [last];
    IdsAppend(pre, [last]);
    assert Ids([last]) == {last.id};
    forall v | v in pre ensures v.id != last.id {
      var i :| 0 <= i < |pre| && pre[i] == v;
      assert ws[i].id != ws[|ws| - 1].id;
    }
  }

  function One(b: bool): nat {
    if b then 1 else 0
  }

  /** Conservation: whatever the interleaving, every submitted task is in exactly one place,
      once, and nothing else is anywhere. */
  lemma TasksAreConserved(cfg: Config, acts: seq<Action>, id: string)
    requires cfg.maxWorkers >= 1
    ensures var s := StateAfter(cfg, acts);
      Occurrences(s.pending, id) + Occurrences(s.inFlight, id)
      + One(id in s.held) + One(id in s.finished) + One(id in s.dropped) == One(id in s.futures)
  {
    EveryStateIsSound(cfg, acts);
    var s := StateAfter(cfg, acts);
    hide TasksOk, WorkersOk, FlightOk, StateAfter;
    OccursOnce(s.pending, id);
    OccursOnce(s.inFlight, id);
  }

  /** Isolation and matching: an exclusive task in flight is the only task in flight; distinct
      tasks are on distinct workers, none of them retiring, each busy with that very task and
      pinned to its GPU; and neither the pool nor the in-flight table outgrows the cap. */
  lemma InFlightIsSafe(cfg: Config, acts: seq<Action>)
    requires cfg.maxWorkers >= 1
    ensures var s := StateAfter(cfg, acts);
      && |s.workers| <= cfg.maxWorkers && |s.inFlight| <= cfg.maxWorkers
      && (forall w :: w in s.inFlight && w.exclusive ==> s.inFlight == [w])
      && (forall v, w :: v in s.inFlight && w in s.inFlight && v.cold && w.cold && v.identity == w.identity ==> v == w)
      && (forall w :: w in s.inFlight ==> w.worker.Some? && w.worker.value !in WorkerIds(s.retiring) && Carried(s, w))
      && (forall v, w :: v in s.inFlight && w in s.inFlight && v.worker == w.worker ==> v == w)
  {
    EveryStateIsSound(cfg, acts);
    var s := StateAfter(cfg, acts);
    hide TasksOk, StateAfter;
    forall v, w | v in s.inFlight && w in s.inFlight && v.id == w.id ensures v == w {
      SameIdSameWork(s.inFlight, v, w);
    }
    forall w | w in s.inFlight && w.exclusive ensures s.inFlight == [w] {
      AloneInFlight(cfg, s, w);
    }
    forall w | w in s.inFlight ensures w.worker.Some? && w.worker.value !in WorkerIds(s.retiring) {
      var k := CarrierOf(cfg, s, w);
    }
    forall v, w | v in s.inFlight && w in s.inFlight && v.worker == w.worker ensures v == w {
      var j := CarrierOf(cfg, s, v);
      var k := CarrierOf(cfg, s, w);
      SameCarrier(cfg, s, j, k);
    }
  }

  lemma AloneInFlight(cfg: Config, s: State, w: Work)
    requires NoDup(s.inFlight) && FlightOk(cfg, s.inFlight) && w in s.inFlight && w.exclusive
    ensures s.inFlight == [w]
  {
    var ws := s.inFlight;
    var i :| 0 <= i < |ws| && ws[i] == w;
    assert ws[0] in ws && ws[|ws| - 1] in ws;
  }

  lemma CarrierOf(cfg: Config, s: State, w: Work) returns (k: Worker)
    requires WorkersOk(cfg, s) && w in s.inFlight
    ensures k in Carriers(s) && On(k, w)
    ensures k.id !in WorkerIds(s.retiring)
  {
    assert Carried(s, w);
    k :| k in Carriers(s) && On(k, w);
    assert k in s.workers ==> k.id in WorkerIds(s.workers);
    assert k in s.dead ==> k.id in WorkerIds(s.dead);
  }

  lemma SameCarrier(cfg: Config, s: State, j: Worker, k: Worker)
    requires WorkersOk(cfg, s) && j in Carriers(s) && k in Carriers(s) && j.id == k.id
    ensures j == k
  {
    assert j in s.workers ==> j.id in WorkerIds(s.workers);
    assert j in s.dead ==> j.id in WorkerIds(s.dead);
    assert k in s.workers ==> k.id in WorkerIds(s.workers);
    assert k in s.dead ==> k.id in WorkerIds(s.dead);
    if j in s.workers { SameIdSameWorker(s.workers, j, k); } else { SameIdSameWorker(s.dead, j, k); }
  }

  lemma FuturesAgreeIn(cfg: Config, s: State, id: string)
    requires Inv(cfg, s) && id in s.futures
    ensures id in s.log && s.log[id].handshakes <= 1 && s.log[id].settlements <= 1 && !s.broken
    ensures id in Ids(s.inFlight) || id in s.held ==> s.futures[id] == Running && s.log[id].handshakes == 1
    ensures id in Ids(s.pending) && Done(s.futures[id]) ==> s.futures[id] == Cancelled
    ensures id in s.finished ==> Done(s.futures[id])
    ensures id in s.dropped ==> s.stopping
  {
    assert id in s.dropped ==> s.stopping;
    hide WorkersOk;
    assert TaskOk(cfg, s, id);
  }

  /** Futures agree with the queues: a task in flight or in a handler's hands is running, so
      cannot be cancelled; a done future still queued is a cancelled one; there is at most one
      handshake and one settlement; and nothing is dropped unsettled before shutdown. */
  lemma FuturesAgree(cfg: Config, acts: seq<Action>, id: string)
    requires cfg.maxWorkers >= 1 && id in StateAfter(cfg, acts).futures
    ensures var s := StateAfter(cfg, acts);
      && id in s.log && s.log[id].handshakes <= 1 && s.log[id].settlements <= 1 && !s.broken
      && (id in Ids(s.inFlight) || id in s.held ==> s.futures[id] == Running && s.log[id].handshakes == 1)
      && (id in Ids(s.pending) && Done(s.futures[id]) ==> s.futures[id] == Cancelled)
      && (id in s.finished ==> Done(s.futures[id]))
      && (id in s.dropped ==> s.stopping)
  {
    hide Inv, FlightOk, StateAfter;
    EveryStateIsSound(cfg, acts);
    FuturesAgreeIn(cfg, StateAfter(cfg, acts), id);
  }

  /** A task queued for its k-th crash retry was sent k times, is exclusive, has no expected
      duration, and carries 2^k times the estimate it was first sent with; a task on its first
      attempt is not exclusive. */
  lemma RetriesDouble(cfg: Config, acts: seq<Action>, w: Work)
    requires cfg.maxWorkers >= 1 && w in StateAfter(cfg, acts).pending
    ensures var s := StateAfter(cfg, acts);
      && w.retries <= cfg.maxRetries && (w.exclusive <==> w.retries > 0)
      && w.id in s.log && s.log[w.id].dispatches == w.retries
      && (w.retries > 0 ==>
            && w.estimate.duration == None && s.log[w.id].first.Some?
            && w.estimate.memory == Doubled(s.log[w.id].first.value.memory, w.retries)
            && w.estimate.vram == Doubled(s.log[w.id].first.value.vram, w.retries))
  {
    EveryStateIsSound(cfg, acts);
    var s := StateAfter(cfg, acts);
    hide StateAfter;
    assert w.id in Ids(s.pending);
    assert TaskOk(cfg, s, w.id);
  }
}
