/** What becomes of a dead worker's task when the steps of all threads interleave: whichever
    handler takes the task first decides. */
module LastWords {
  import opened Quantities
  import opened Profiles
  import opened Stores
  import opened Accounting
  import opened Admission
  import opened Planning
  import opened ExecutorState
  import opened ExecutorInvariants
  import opened ExecutorDispatch
  import opened ExecutorRuns
  import opened ExecutorProgress
  import opened Draining

  /** The task `id` is in flight on `k`, whose process is gone and which is yet to be given up. */
  ghost predicate Dying(s: State, k: Worker, id: string) {
    k in s.dead && k.current == Some(id) && StageOf(s, id) == Flying
  }

  /** A step that takes the task of the dead worker `k` out of flight. */
  predicate Takes(a: Action, k: Worker, id: string) {
    match a
    case ATakeResult(i, _) => i == id
    case ATakeTimeout(i) => i == id
    case ATakeLost(worker) => worker == k.id
    case _ => false
  }

  /** Settled, or in the hands of a handler that will settle it. */
  predicate Settling(stage: Stage) {
    stage == Handled(ByResult) || stage == Handled(ByTimeout) || stage == Over
  }

  // ----- the dead stay until they are given up -----

  lemma AcquireLeavesTheDead(cfg: Config, s: State, pin: Option<int>, alive: set<int>)
    ensures var r := Acquire(cfg, s, pin, alive); r.Some? ==> r.value.1.dead == s.dead
  {
    hide FirstIdle, WithoutWorkers;
  }

  lemma ShipLeavesTheDead(cfg: Config, s: State, d: Decision, alive: set<int>, now: real)
    ensures Ship(cfg, s, d, alive, now).dead == s.dead
  {
    hide Acquire, Find, Without, Replace, FindWorker;
    AcquireLeavesTheDead(cfg, s, d.gpu, alive);
  }

  lemma {:induction false} ShipAllLeavesTheDead(cfg: Config, s: State, decisions: seq<Decision>, env: Env)
    ensures ShipAll(cfg, s, decisions, env).dead == s.dead
  {
    hide Ship;
    if decisions != [] {
      var n := |decisions| - 1;
      ShipAllLeavesTheDead(cfg, s, decisions[..n], env);
      ShipLeavesTheDead(cfg, ShipAll(cfg, s, decisions[..n], env), decisions[n], AliveAt(env, n), env.now);
    }
  }

  lemma DispatchLeavesTheDead(cfg: Config, s: State, env: Env)
    ensures Dispatch(cfg, s, env).dead == s.dead
  {
    hide ShipAll, PlanOf, Prepared;
    PreparedLeavesTheDead(cfg, s, env);
    var seen := Seen(cfg, s, env);
    var plan := PlanOf(cfg, seen, env);
    ShipAllLeavesTheDead(cfg, seen.(nextGpu := plan.rr), Decisions(plan.admitted), env);
  }

  lemma PreparedLeavesTheDead(cfg: Config, s: State, env: Env)
    ensures Prepared(cfg, s, env).dead == s.dead
  {
  }

  lemma TakeTimeoutLeavesTheDead(cfg: Config, s: State, id: string)
    ensures TakeTimeout(cfg, s, id).dead == s.dead
  {
    hide Find, FindWorker, Without, WithoutWorkers, Replace;
  }

  lemma FinishingLeavesTheDead(cfg: Config, s: State, a: Action)
    requires a.AFinishResult? || a.AFinishTimeout? || a.AFinishLost?
    ensures Apply(cfg, s, a).dead == s.dead
  {
    hide Record, Penalized;
  }

  lemma TakeLostKeepsOthers(s: State, worker: int, k: Worker)
    requires k in s.dead && k.id != worker
    ensures k in TakeLost(s, worker).dead
  {
    TakeLostOnlyBuries(s, worker);
    hide TakeLost;
  }

  lemma TakeLostOnlyBuries(s: State, worker: int)
    ensures var k := FindWorker(s.dead, worker);
      TakeLost(s, worker).dead == if k == None then s.dead else WithoutWorkers(s.dead, {k.value.id})
  {
    hide Find, FindWorker, WithoutWorkers, Popped, Dropping;
    var k := FindWorker(s.dead, worker);
    if k.Some? && k.value.current.Some? {
      var w := Find(s.inFlight, k.value.current.value);
      if w.Some? { LeavingKeepsTheDead(Buried(s, k.value), w.value, Held(w.value, ByCrash)); }
    }
  }

  lemma LeavingKeepsTheDead(s: State, w: Work, held: Held)
    ensures Popped(s, w, held).dead == s.dead && Dropping(s, w).dead == s.dead
  {
    hide Without;
  }

  lemma DeadStays(cfg: Config, s: State, a: Action, k: Worker)
    requires k in s.dead && a != ATakeLost(k.id)
    ensures k in Apply(cfg, s, a).dead
  {
    hide Dispatch, TakeResult, TakeTimeout, TakeLost, FinishResult, FinishLost, FinishTimeout, Expel, Submit;
    match a
    case ADispatch(env) => DispatchLeavesTheDead(cfg, s, env);
    case ATakeResult(id, worker) => TakeResultLeavesTheDead(cfg, s, id, worker);
    case ATakeTimeout(id) => TakeTimeoutLeavesTheDead(cfg, s, id);
    case ATakeLost(worker) => TakeLostKeepsOthers(s, worker, k);
    case AFinishResult(_, _, _) => FinishingLeavesTheDead(cfg, s, a);
    case AFinishTimeout(_) => FinishingLeavesTheDead(cfg, s, a);
    case AFinishLost(_, _) => FinishingLeavesTheDead(cfg, s, a);
    case _ => PlainStepsKeepTheDead(cfg, s, a, k);
  }

  lemma PlainStepsKeepTheDead(cfg: Config, s: State, a: Action, k: Worker)
    requires a.ASubmit? || a.ACancel? || a.ACheckWorkers? || a.AFailPending? || a.AStopAll?
    requires k in s.dead
    ensures k in Apply(cfg, s, a).dead
  {
    hide WithoutWorkers, Without;
  }

  // ----- who may lose the task -----

  lemma OneWorkerEach(cfg: Config, s: State, j: Worker, k: Worker, id: string)
    requires WorkersOk(cfg, s) && j in s.dead && k in s.dead && j.current == Some(id) && k.current == Some(id)
    requires id in Ids(s.inFlight)
    ensures j.id == k.id
  {
    var w :| w in s.inFlight && w.id == id;
    assert j in Carriers(s) && CurrentOk(s, j) && k in Carriers(s) && CurrentOk(s, k);
  }

  /** Only giving up the very worker a task is on can lose the task. */
  lemma OnlyItsWorkerLoses(cfg: Config, s: State, k: Worker, id: string, worker: int)
    requires Inv(cfg, s) && Dying(s, k, id) && worker != k.id
    ensures LifeOf(TakeLost(s, worker), id) == LifeOf(s, id)
  {
    InvPlaces(cfg, s);
    FlyingInTable(s, id);
    var j := FindWorker(s.dead, worker);
    if j.Some? && j.value.current == Some(id) {
      OneWorkerEach(cfg, s, j.value, k, id);
    }
    hide Inv, LifeOf, StageOf, TakeLost;
    TakeLostMoves(cfg, s, worker, id);
  }

  lemma UntakenStep(cfg: Config, s: State, a: Action, k: Worker, id: string)
    requires Inv(cfg, s) && Dying(s, k, id) && !Takes(a, k, id)
    ensures Dying(Apply(cfg, s, a), k, id) && LifeOf(Apply(cfg, s, a), id) == LifeOf(s, id)
  {
    hide Inv, Apply, LifeOf, StageOf;
    DeadStays(cfg, s, a, k);
    StageOfLife(s, id);
    StageOfLife(Apply(cfg, s, a), id);
    EveryStepMoves(cfg, s, a, id);
    FlyingIsRunning(cfg, s, id);
    if a.ATakeLost? {
      OnlyItsWorkerLoses(cfg, s, k, id, a.worker);
      assert Apply(cfg, s, a) == TakeLost(s, a.worker) by { LostIsTaken(cfg, s, a.worker); }
    }
  }

  lemma LostIsTaken(cfg: Config, s: State, worker: int)
    ensures Apply(cfg, s, ATakeLost(worker)) == TakeLost(s, worker)
  {
  }

  /** Until one of the three takers acts, nothing any thread does touches the task of a dead
      worker: it is not cancelled, re-queued, sent elsewhere or failed, and the worker waits. */
  lemma {:induction false} UntakenFlies(cfg: Config, s: State, acts: seq<Action>, k: Worker, id: string)
    requires Inv(cfg, s) && Dying(s, k, id)
    requires forall i :: 0 <= i < |acts| ==> !Takes(acts[i], k, id)
    ensures Dying(RunFrom(cfg, s, acts), k, id) && LifeOf(RunFrom(cfg, s, acts), id) == LifeOf(s, id)
  {
    hide Inv, Apply, LifeOf, Dying, Takes;
    if acts != [] {
      var pre := acts[..|acts| - 1];
      UntakenFlies(cfg, s, pre, k, id);
      RunKeepsInv(cfg, s, pre);
      UntakenStep(cfg, RunFrom(cfg, s, pre), acts[|acts| - 1], k, id);
    }
  }

  lemma {:induction false} RunsCompose(cfg: Config, s: State, before: seq<Action>, after: seq<Action>)
    ensures RunFrom(cfg, s, before + after) == RunFrom(cfg, RunFrom(cfg, s, before), after)
  {
    hide Apply;
    if after == [] {
      assert before + after == before;
    } else {
      var pre, a := after[..|after| - 1], after[|after| - 1];
      RunsCompose(cfg, s, before, pre);
      assert (before + after)[..|before + after| - 1] == before + pre;
    }
  }

  // ----- the first taker decides -----

  /** A timed-out task is out of every other handler's reach: it ends failed, and nothing else
      can become of it. */
  lemma {:induction false} TakenTimeoutIsFinal(cfg: Config, s: State, acts: seq<Action>, id: string)
    requires Inv(cfg, s) && StageOf(s, id) == Handled(ByTimeout)
    ensures LifeOf(RunFrom(cfg, s, acts), id) ==
      if AFinishTimeout(id) in acts then Life(Over, LifeOf(s, id).sends, Some(Finished(false))) else LifeOf(s, id)
  {
    hide Inv, Apply, LifeOf;
    if acts != [] {
      var pre, a := acts[..|acts| - 1], acts[|acts| - 1];
      assert acts == pre + [a];
      TakenTimeoutIsFinal(cfg, s, pre, id);
      RunKeepsInv(cfg, s, pre);
      StageOfLife(s, id);
      EveryStepMoves(cfg, RunFrom(cfg, s, pre), a, id);
    }
  }

  /** What taking the task of a dead worker out of flight leaves. */
  lemma TakerTakes(cfg: Config, s: State, a: Action, k: Worker, id: string)
    requires Inv(cfg, s) && Dying(s, k, id) && Takes(a, k, id)
    ensures LifeOf(Apply(cfg, s, a), id) == LifeOf(s, id).(stage :=
      match a
      case ATakeResult(_, _) => Handled(ByResult)
      case ATakeTimeout(_) => Handled(ByTimeout)
      case _ => if k.stopped then Over else Handled(ByCrash))
  {
    InvPlaces(cfg, s);
    DeadIsFound(cfg, s, k);
    FlyingInTable(s, id);
    StageOfLife(s, id);
    hide Inv, LifeOf, StageOf, TakeResult, TakeTimeout, TakeLost;
    match a
    case ATakeResult(_, worker) => TakeResultMoves(cfg, s, id, worker, id);
    case ATakeTimeout(_) => TakeTimeoutMoves(cfg, s, id, id);
    case ATakeLost(worker) => TakeLostMoves(cfg, s, worker, id);
  }

  /** Whoever takes the task of a dead worker first decides what becomes of it, whatever else
      happens before and after.  A result taken first is what the future ends with, and giving up
      the worker later changes nothing; a timeout taken first fails the task; and only a worker
      given up first leaves its task to the crash handler or, after shutdown, nowhere, its
      future running for ever. */
  lemma FirstTakerDecides(cfg: Config, s: State, k: Worker, before: seq<Action>, taker: Action, after: seq<Action>,
                          id: string)
    requires Inv(cfg, s) && Dying(s, k, id) && Takes(taker, k, id)
    requires forall i :: 0 <= i < |before| ==> !Takes(before[i], k, id)
    ensures var mid := RunFrom(cfg, s, before + [taker]);
      var sends, end := LifeOf(s, id).sends, LifeOf(RunFrom(cfg, mid, after), id);
      match taker
      case ATakeResult(_, _) =>
        end == (match FirstVerdict(after, id)
                case None => Life(Handled(ByResult), sends, Some(Running))
                case Some(ok) => Life(Over, sends, Some(Finished(ok))))
      case ATakeTimeout(_) =>
        end == (if AFinishTimeout(id) in after then Life(Over, sends, Some(Finished(false)))
                else Life(Handled(ByTimeout), sends, Some(Running)))
      case _ =>
        if k.stopped then end == Life(Over, sends, Some(Running))
        else LifeOf(mid, id) == Life(Handled(ByCrash), sends, Some(Running))
  {
    hide Inv, Apply, LifeOf, StageOf, Dying, Takes;
    var last := RunFrom(cfg, s, before);
    UntakenFlies(cfg, s, before, k, id);
    RunKeepsInv(cfg, s, before);
    TakerTakes(cfg, last, taker, k, id);
    var mid := RunFrom(cfg, s, before + [taker]);
    assert (before + [taker])[..|before|] == before;
    RunKeepsInv(cfg, s, before + [taker]);
    RunningWhileDying(cfg, s, k, id);
    StageOfLife(mid, id);
    match taker
    case ATakeResult(_, _) => TakenResultIsFinal(cfg, mid, after, id);
    case ATakeTimeout(_) => TakenTimeoutIsFinal(cfg, mid, after, id);
    case _ => if k.stopped && StageOf(mid, id) == Over { OverIsForever(cfg, mid, after, id); }
  }

  lemma RunningWhileDying(cfg: Config, s: State, k: Worker, id: string)
    requires Inv(cfg, s) && Dying(s, k, id)
    ensures LifeOf(s, id).stage == Flying && LifeOf(s, id).future == Some(Running)
  {
    hide Inv;
    FlyingIsRunning(cfg, s, id);
  }

  /** A result delivered before death is never retried, whatever else happens meanwhile: once
      the drain has taken a result for the task the worker was on, giving up the worker moves
      no task at all. */
  lemma DeliveredIsNotLost(cfg: Config, s: State, k: Worker, acts: seq<Action>, i: nat, id: string)
    requires Inv(cfg, s) && Dying(s, k, id) && ATakeLost(k.id) !in acts
    requires i < |acts| && acts[i].ATakeResult? && acts[i].id == id
    ensures var s' := RunFrom(cfg, s, acts);
      && k in s'.dead && Settling(StageOf(s', id))
      && LifeOf(s', id).sends == LifeOf(s, id).sends
      && (forall other :: LifeOf(TakeLost(s', k.id), other) == LifeOf(s', other))
  {
    var s' := RunFrom(cfg, s, acts);
    TakenMeansSettling(cfg, s, k, acts, i, id);
    WaitingForBurial(cfg, s, acts, k) by { assert k in s.dead; }
    RunKeepsInv(cfg, s, acts);
    hide Inv, Apply, LifeOf, TakeLost, RunFrom;
    NothingToLose(cfg, s', k, id);
  }

  /** Giving up a worker whose task has been taken from it moves no task. */
  lemma NothingToLose(cfg: Config, s: State, k: Worker, id: string)
    requires Inv(cfg, s) && k in s.dead && k.current == Some(id) && StageOf(s, id) != Flying
    ensures forall other :: LifeOf(TakeLost(s, k.id), other) == LifeOf(s, other)
  {
    InvPlaces(cfg, s);
    DeadIsFound(cfg, s, k);
    StageOfLife(s, id);
    FlyingInTable(s, id);
    hide Inv, LifeOf, StageOf, TakeLost;
    forall other ensures LifeOf(TakeLost(s, k.id), other) == LifeOf(s, other) {
      TakeLostMoves(cfg, s, k.id, other);
    }
  }

  lemma TakenMeansSettling(cfg: Config, s: State, k: Worker, acts: seq<Action>, i: nat, id: string)
    requires Inv(cfg, s) && Dying(s, k, id) && ATakeLost(k.id) !in acts
    requires i < |acts| && acts[i].ATakeResult? && acts[i].id == id
    ensures var s' := RunFrom(cfg, s, acts);
      && Settling(StageOf(s', id))
      && LifeOf(s', id).sends == LifeOf(s, id).sends
  {
    var before, taker, after := SplitAtTaker(acts, i, k, id);
    hide Inv, Apply, LifeOf, StageOf, RunFrom, Dying;
    TakerSettles(cfg, s, k, before, taker, after, id);
    RunsCompose(cfg, s, before + [taker], after);
  }

  /** A task taken as a result or as timed out is settled by that handler or still with it. */
  lemma TakerSettles(cfg: Config, s: State, k: Worker, before: seq<Action>, taker: Action, after: seq<Action>,
                     id: string)
    requires Inv(cfg, s) && Dying(s, k, id) && Takes(taker, k, id) && !taker.ATakeLost?
    requires forall i :: 0 <= i < |before| ==> !Takes(before[i], k, id)
    ensures var s' := RunFrom(cfg, RunFrom(cfg, s, before + [taker]), after);
      Settling(StageOf(s', id)) && LifeOf(s', id).sends == LifeOf(s, id).sends
  {
    hide Inv, Apply, LifeOf, StageOf, RunFrom, Dying, FirstVerdict;
    FirstTakerDecides(cfg, s, k, before, taker, after, id);
    StageOfLife(RunFrom(cfg, RunFrom(cfg, s, before + [taker]), after), id);
  }

  lemma SplitAtTaker(acts: seq<Action>, i: nat, k: Worker, id: string)
    returns (before: seq<Action>, taker: Action, after: seq<Action>)
    requires i < |acts| && Takes(acts[i], k, id)
    ensures acts == before + [taker] + after && taker in acts && Takes(taker, k, id)
    ensures forall m :: 0 <= m < |before| ==> !Takes(before[m], k, id)
  {
    hide Takes;
    var j := 0;
    while !Takes(acts[j], k, id)
      invariant j <= i && forall m :: 0 <= m < j ==> !Takes(acts[m], k, id)
      decreases i - j
    {
      j := j + 1;
    }
    return acts[..j], acts[j], acts[j + 1..];
  }

  lemma {:induction false} WaitingForBurial(cfg: Config, s: State, acts: seq<Action>, k: Worker)
    requires k in s.dead && ATakeLost(k.id) !in acts
    ensures k in RunFrom(cfg, s, acts).dead
  {
    hide Apply;
    if acts != [] {
      WaitingForBurial(cfg, s, acts[..|acts| - 1], k);
      DeadStays(cfg, RunFrom(cfg, s, acts[..|acts| - 1]), acts[|acts| - 1], k);
    }
  }

  // ----- dropped for good -----

  const ONE_WORKER := Config(1, [], 0.0, 0.0, 0, None, true, 1.0)
  const ORIGIN := Origin("module", "function", None)
  const CALM := Env(0.5, None, None, map[], [{0}])

  /** The one task, before and after the planner has looked at it. */
  const LOST := Work("lost", ORIGIN, None, None, Estimate(1.5, 0.0, 1.0, 0.0, None), 0, Some(0.0), None,
                     None, false, None, None, None, 0.0, 0.0, 0, false, false, false)
  const STAMPED := LOST.(identity := Some(BaseKey(ORIGIN)), cold := true)
  const SENT := Started(STAMPED, None, 0, 0.5)

  const SUBMITTED := State([LOST], [], map[], {}, {}, map["lost" := Queued], map["lost" := Log(0, 0, 0, None)],
                           [], [], [], 0, 0, map[], false, false)
  const FLYING := State([], [SENT], map[], {}, {}, map["lost" := Running],
                        map["lost" := Log(1, 1, 0, Some(LOST.estimate))],
                        [Worker(0, None, Some("lost"), false, false, 0)], [], [], 1, 0, map[], false, false)
  const GONE := Worker(0, None, Some("lost"), true, false, 0)
  const DYING := FLYING.(workers := [], dead := [GONE], stopping := true)

  /** Submit a task, send it, shut down, and find its worker gone with nothing in its queue. */
  const SHUT_DOWN: seq<Action> := [
    ASubmit("lost", ORIGIN, None, None, 0.0), ADispatch(CALM), AStopAll, ACheckWorkers({0}), ATakeLost(0)]

  /** Shutdown can leave a future running for ever: the task of the run above is dropped, and
      nothing that happens afterwards settles its future. */
  lemma DroppedForGood(after: seq<Action>)
    ensures var s := StateAfter(ONE_WORKER, SHUT_DOWN);
      && "lost" in s.dropped
      && LifeOf(RunFrom(ONE_WORKER, s, after), "lost") == Life(Over, 1, Some(Running))
  {
    var s := StateAfter(ONE_WORKER, SHUT_DOWN);
    RunUnrolled();
    SubmitSubmits();
    DispatchSends();
    StoppedThenGone();
    LostIsDropped();
    EveryStateIsSound(ONE_WORKER, SHUT_DOWN);
    hide Inv, StateAfter;
    OverIsForever(ONE_WORKER, s, after, "lost");
  }

  lemma OneMore(cfg: Config, acts: seq<Action>, a: Action)
    ensures StateAfter(cfg, acts + [a]) == Apply(cfg, StateAfter(cfg, acts), a)
  {
    assert (acts + [a])[..|acts|] == acts;
  }

  lemma NothingRun(cfg: Config)
    ensures StateAfter(cfg, []) == INITIAL
  {
  }

  lemma FiveSteps(cfg: Config, a: Action, b: Action, c: Action, d: Action, e: Action)
    ensures StateAfter(cfg, [a, b, c, d, e]) ==
      Apply(cfg, Apply(cfg, Apply(cfg, Apply(cfg, Apply(cfg, INITIAL, a), b), c), d), e)
  {
    NothingRun(cfg);
    hide Apply, StateAfter;
    assert [] + [a] == [a] && [a] + [b] == [a, b];
    OneMore(cfg, [], a);
    OneMore(cfg, [a], b);
    OneMore(cfg, [a, b], c);
    OneMore(cfg, [a, b, c], d);
    OneMore(cfg, [a, b, c, d], e);
    assert [a, b] + [c] == [a, b, c] && [a, b, c] + [d] == [a, b, c, d] && [a, b, c, d] + [e] == [a, b, c, d, e];
  }

  lemma RunUnrolled()
    ensures StateAfter(ONE_WORKER, SHUT_DOWN) == TakeLost(CheckWorkers(StopAll(Dispatch(ONE_WORKER,
      Submit(INITIAL, "lost", ORIGIN, None, None, 0.0), CALM)), {0}), 0)
  {
    hide StateAfter, Dispatch, Submit, StopAll, CheckWorkers, TakeLost;
    FiveSteps(ONE_WORKER, ASubmit("lost", ORIGIN, None, None, 0.0), ADispatch(CALM), AStopAll, ACheckWorkers({0}),
              ATakeLost(0));
  }

  lemma SubmitSubmits()
    ensures Submit(INITIAL, "lost", ORIGIN, None, None, 0.0) == SUBMITTED
  {
  }

  lemma DispatchSends()
    ensures Dispatch(ONE_WORKER, SUBMITTED, CALM) == FLYING
  {
    var cfg, s := ONE_WORKER, SUBMITTED;
    var seen := s.(pending := [STAMPED]);
    assert Prepared(cfg, s, CALM) == s by { NothingToPrepare(); }
    assert Surveyed(s, CALM) == seen;
    PlanIsToSend();
    SendingSends();
    hide Prepared, Surveyed, PlanOf, Ship;
    var decisions := [Decision("lost", None)];
    assert decisions[..0] == [];
    assert ShipAll(cfg, seen, decisions, CALM) == Ship(cfg, seen, decisions[0], {0}, 0.5);
  }

  lemma NothingToPrepare()
    ensures Prepared(ONE_WORKER, SUBMITTED, CALM) == SUBMITTED
  {
    var cfg, s := ONE_WORKER, SUBMITTED;
    assert ReestimateAll(cfg, s.store, CALM.now, s.pending) == s.pending;
    assert InfeasibleIds(cfg, None, s.pending) == {};
    WithoutNothing(s.pending);
    hide Without;
    assert {} * Ids(s.pending) == {};
    assert FailAll(s.futures, {}) == s.futures && LogFailures(s.log, s.futures, {}) == s.log;
  }

  lemma PlanIsToSend()
    ensures var plan := PlanOf(ONE_WORKER, SUBMITTED.(pending := [STAMPED]), CALM);
      Decisions(plan.admitted) == [Decision("lost", None)] && plan.rr == 0
  {
    var cap := Capacity(Unbounded, map[], [], 0, 1, 0, false);
    var entry := EntryOf(STAMPED);
    assert Entries([STAMPED]) == [entry] && RunningEntries([], 0.5) == [];
    assert CapacityFor(ONE_WORKER, SUBMITTED.(pending := [STAMPED]), None) == cap;
    var st := Start([entry], [], cap);
    assert st.pools == Pools(Unbounded, map[], 0) && st.held == {};
    assert FrontAdmits(cap, st);
    assert FrontStep(cap, st) == Admit(st, entry, Choice(None, 0), Front).(queue := []);
    assert AdmitFront(cap, FrontStep(cap, st)) == (FrontStep(cap, st), Drained);
  }

  lemma SendingSends()
    ensures Ship(ONE_WORKER, SUBMITTED.(pending := [STAMPED]), Decision("lost", None), {0}, 0.5) == FLYING
  {
    var cfg, s := ONE_WORKER, SUBMITTED.(pending := [STAMPED]);
    var worker := Worker(0, None, None, false, false, 0);
    var acquired := s.(workers := [worker], nextWorker := 1);
    assert Find(s.pending, "lost") == Some(STAMPED);
    assert FirstIdle([], {0}, false, None) == None && [] + [worker] == [worker];
    assert Acquire(cfg, s, None, {0}) == Some((0, acquired)) by { assert Spawn(s, None) == acquired; }
    var shaken := acquired.(futures := map["lost" := Running], log := map["lost" := Log(1, 0, 0, None)]);
    assert Handshake(acquired, STAMPED) == shaken;
    assert FindWorker([worker], 0) == Some(worker);
    assert Replace([worker], worker.(current := Some("lost"))) == FLYING.workers;
    assert [STAMPED][..0] == [] && Without([STAMPED], {"lost"}) == [];
    hide Find, Acquire, Handshake, FindWorker, Replace, Without;
    assert Send(shaken, STAMPED, None, 0, 0.5) == FLYING;
  }

  lemma StoppedThenGone()
    ensures CheckWorkers(StopAll(FLYING), {0}) == DYING
  {
  }

  lemma LostIsDropped()
    ensures var s := TakeLost(DYING, 0);
      "lost" in s.dropped && s.futures == FLYING.futures && LifeOf(s, "lost") == Life(Over, 1, Some(Running))
  {
  }
}
