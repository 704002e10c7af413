/** Backfill and the canary together: a task of the head's own profile identity can be let past a
    cold head, and the canary then holds the head back for as long as that task runs. */
module Overtaking {
  import opened Quantities
  import opened Admission
  import opened Planning
  import opened Reservations
  import opened Plans
  import opened Stalling
  import opened Runs
  import opened Turns
  import opened Fairness
  import opened Profiles

  /** The sizes of any queued task: estimates have fixed minimums. */
  predicate Executable(task: PendingEntry) {
    task.memory >= 0.1 && task.vram >= 0.0 && task.cpu >= 0.1
  }

  ghost predicate AllExecutable(tasks: seq<PendingEntry>) {
    forall i :: 0 <= i < |tasks| ==> Executable(tasks[i])
  }

  /** A task of a cold head's identity has been let past it; `forGood`: by rule (a), so that nothing
      says when it will release. */
  ghost predicate Overtaken(st: PlanState, fin: PlanState, head: PendingEntry, forGood: bool) {
    && head.cold && head.identity.Some?
    && exists i :: |st.admitted| <= i < |fin.admitted| && fin.admitted[i].task.identity == head.identity
         && (forGood ==> fin.admitted[i].rule.Disjoint?)
  }

  // ----- which queues let it happen -----

  /** At its turn candidate `k` is of the head's identity and passes the head. */
  ghost predicate SiblingPasses(cap: Capacity, st: PlanState, head: PendingEntry, r: Moment,
                                candidates: seq<PendingEntry>, forGood: bool, k: int) {
    && 0 <= k < |candidates| && candidates[k].identity == head.identity
    && Passes(cap, AtTurn(cap, st, head, r, candidates, k), head, r, candidates[k])
    && (forGood ==> !EndsBy(candidates[k], r))
  }

  /** Exactly when the given queue overtakes a cold head: some candidate of its identity passes it at
      its turn. */
  lemma {:induction false} OvertakenExactly(cap: Capacity, st: PlanState, head: PendingEntry, r: Moment,
                                            candidates: seq<PendingEntry>, forGood: bool)
    requires head.cold && head.identity.Some?
    ensures Overtaken(st, Backfill(cap, st, head, r, candidates), head, forGood) <==>
      exists k :: SiblingPasses(cap, st, head, r, candidates, forGood, k)
  {
    if candidates != [] {
      var n := |candidates| - 1;
      var pre := candidates[..n];
      OvertakenExactly(cap, st, head, r, pre, forGood);
      BackfillFrame(cap, st, head, r, pre);
      var a := TurnByTurn(cap, st, head, r, candidates, n);
      assert candidates[..n + 1] == candidates;
      PrefixPasses(cap, st, head, r, candidates, forGood, n);
      var turn, next := AtTurn(cap, st, head, r, candidates, n), AtTurn(cap, st, head, r, candidates, n + 1);
      hide Backfill, Passes, Overtaken;
      assert next.admitted == turn.admitted + [a] ==> |next.admitted| == |turn.admitted| + 1;
      assert SiblingPasses(cap, st, head, r, candidates, forGood, n) <==>
        next != turn && a.task.identity == head.identity && (forGood ==> a.rule.Disjoint?);
      LastTurn(st, turn, next, head, forGood, a);
      LastOrBefore(cap, st, head, r, candidates, forGood);
    }
  }

  lemma LastOrBefore(cap: Capacity, st: PlanState, head: PendingEntry, r: Moment, candidates: seq<PendingEntry>,
                     forGood: bool)
    requires candidates != []
    ensures var n := |candidates| - 1;
      (exists k :: SiblingPasses(cap, st, head, r, candidates, forGood, k)) <==>
        || (exists k :: k < n && SiblingPasses(cap, st, head, r, candidates, forGood, k))
        || SiblingPasses(cap, st, head, r, candidates, forGood, n)
  {
    hide Backfill, Passes;
    if k :| SiblingPasses(cap, st, head, r, candidates, forGood, k) {
      assert k == |candidates| - 1 || k < |candidates| - 1;
    }
  }

  /** Who passes among the first `n` candidates does not depend on the others. */
  lemma PrefixPasses(cap: Capacity, st: PlanState, head: PendingEntry, r: Moment, candidates: seq<PendingEntry>,
                     forGood: bool, n: nat)
    requires n < |candidates|
    ensures (exists k :: SiblingPasses(cap, st, head, r, candidates[..n], forGood, k)) <==>
      exists k :: k < n && SiblingPasses(cap, st, head, r, candidates, forGood, k)
  {
    var pre := candidates[..n];
    hide Backfill, Passes;
    forall k | 0 <= k < n
      ensures SiblingPasses(cap, st, head, r, candidates, forGood, k)
              <==> SiblingPasses(cap, st, head, r, pre, forGood, k)
    {
      assert pre[..k] == candidates[..k];
    }
    if k :| SiblingPasses(cap, st, head, r, pre, forGood, k) {
      assert SiblingPasses(cap, st, head, r, candidates, forGood, k);
    }
    if k :| k < n && SiblingPasses(cap, st, head, r, candidates, forGood, k) {
      assert SiblingPasses(cap, st, head, r, pre, forGood, k);
    }
  }

  /** One more turn overtakes the head if an earlier one did, or this one does. */
  lemma LastTurn(st: PlanState, turn: PlanState, next: PlanState, head: PendingEntry, forGood: bool, a: Placement)
    requires st.admitted <= turn.admitted && (next == turn || next.admitted == turn.admitted + [a])
    requires head.cold && head.identity.Some?
    ensures Overtaken(st, next, head, forGood) <==>
      || Overtaken(st, turn, head, forGood)
      || (next != turn && a.task.identity == head.identity && (forGood ==> a.rule.Disjoint?))
  {
    if next != turn {
      assert next.admitted[|turn.admitted|] == a;
      assert forall i :: 0 <= i < |turn.admitted| ==> next.admitted[i] == turn.admitted[i];
    }
  }

  // ----- which situations allow it -----

  /** There is a slot now, and memory for a sibling of `least` GB. */
  predicate RoomNow(cap: Capacity, st: PlanState, least: real) {
    st.pools.slots < cap.maxWorkers && st.pools.memory.Exceeds(least)
  }

  /** Beside a sibling of `least` GB the head still fits at its reservation. */
  ghost predicate RoomBeside(cap: Capacity, st: PlanState, head: PendingEntry, r: Moment, least: real) {
    Fits(cap, head, Take(StateAt(st.pools, st.occupants, r), least, 0.0, None))
  }

  /** A sibling could be let past: there is room for it now, and either the head will fit beside it
      or, unless it is to hold for good, it can be short enough. */
  ghost predicate Exposed(cap: Capacity, st: PlanState, head: PendingEntry, r: Moment, least: real, forGood: bool) {
    RoomNow(cap, st, least) && (RoomBeside(cap, st, head, r, least) || (!forGood && r.At?))
  }

  /** The least sibling: `least` GB, warm, and as short as may be needed. */
  function LeastSibling(head: PendingEntry, r: Moment, least: real, forGood: bool): PendingEntry {
    var duration := if forGood || r.Infinity? then None else Some(r.seconds);
    PendingEntry("", least, 0.0, 1.0, duration, false, head.identity, false)
  }

  lemma LeastSiblingPasses(cap: Capacity, st: PlanState, head: PendingEntry, r: Moment, least: real, forGood: bool)
    requires head.cold && head.identity.Some? && Exposed(cap, st, head, r, least, forGood)
    ensures Overtaken(st, Backfill(cap, st, head, r, [LeastSibling(head, r, least, forGood)]), head, forGood)
  {
    var c := LeastSibling(head, r, least, forGood);
    assert [c][..0] == [];
    assert MayGo(cap, st, head, r, c, None);
    assert SiblingPasses(cap, st, head, r, [c], forGood, 0);
    OvertakenExactly(cap, st, head, r, [c], forGood);
  }

  lemma TakeIsRoomierWithLess(p: Pools, q: Pools, m: real, v: real, g: Option<int>, least: real)
    requires Roomier(p, q) && m >= least && v >= 0.0
    ensures Roomier(Take(p, m, v, g), Take(q, least, 0.0, None))
  {
  }

  lemma {:induction false} BackfillTightens(cap: Capacity, st: PlanState, head: PendingEntry, r: Moment,
                                            candidates: seq<PendingEntry>)
    requires AllExecutable(candidates)
    ensures Roomier(Backfill(cap, st, head, r, candidates).pools, st.pools)
  {
    if candidates != [] {
      var pre, c := candidates[..|candidates| - 1], candidates[|candidates| - 1];
      BackfillTightens(cap, st, head, r, pre);
      var mid := Backfill(cap, st, head, r, pre);
      var a := BackfillOneSteps(cap, mid, head, r, c);
      TakeShrinks(mid.pools, c.memory, c.vram, a.gpu);
      RoomierTransitive(Take(mid.pools, c.memory, c.vram, a.gpu), mid.pools, st.pools);
    }
  }

  /** Whoever passes found at its turn what was there before any backfill. */
  lemma PassingNeedsRoom(cap: Capacity, st: PlanState, head: PendingEntry, r: Moment, candidates: seq<PendingEntry>,
                         least: real, forGood: bool, k: int)
    requires AllExecutable(candidates) && SiblingPasses(cap, st, head, r, candidates, forGood, k)
    requires candidates[k].memory >= least
    ensures Exposed(cap, st, head, r, least, forGood || candidates[k].duration == None)
  {
    var c, turn := candidates[k], AtTurn(cap, st, head, r, candidates, k);
    BackfillTightens(cap, st, head, r, candidates[..k]);
    BackfillFrame(cap, st, head, r, candidates[..k]);
    if !EndsBy(c, r) {
      var a := BackfillOneSteps(cap, turn, head, r, c);
      var before, now := StateAt(st.pools, st.occupants, r), StateAt(turn.pools, st.occupants, r);
      StateAtMonotone(turn.pools, st.pools, st.occupants, r);
      TakeIsRoomierWithLess(now, before, c.memory, c.vram, a.gpu, least);
      FitsMonotone(cap, head, Take(now, c.memory, c.vram, a.gpu), Take(before, least, 0.0, None));
    }
  }

  /** Exactly when some queue given to the planner, of tasks with the minimum sizes, has the head
      overtaken by its own identity: it is cold, there is a slot and more than 0.1 GB now, and either its
      reservation would leave it room beside 0.1 GB and a slot more, or, unless the overtaking is to hold
      for good, the reservation is finite. */
  lemma SomeQueueOvertakes(cap: Capacity, st: PlanState, head: PendingEntry, r: Moment, forGood: bool)
    ensures (exists candidates :: AllExecutable(candidates) &&
               Overtaken(st, Backfill(cap, st, head, r, candidates), head, forGood)) <==>
            head.cold && head.identity.Some? && Exposed(cap, st, head, r, 0.1, forGood)
  {
    if candidates :| AllExecutable(candidates) && Overtaken(st, Backfill(cap, st, head, r, candidates), head, forGood) {
      OvertakenExactly(cap, st, head, r, candidates, forGood);
      var k :| SiblingPasses(cap, st, head, r, candidates, forGood, k);
      PassingNeedsRoom(cap, st, head, r, candidates, 0.1, forGood, k);
    }
    if head.cold && head.identity.Some? && Exposed(cap, st, head, r, 0.1, forGood) {
      LeastSiblingPasses(cap, st, head, r, 0.1, forGood);
      assert AllExecutable([LeastSibling(head, r, 0.1, forGood)]);
    }
  }

  // ----- the queues of the executor -----

  /** What no estimate from the profile is below. */
  function Least(p: Profile): real {
    if p.floor.Some? then Max(0.1, p.floor.value) else 0.1
  }

  /** Queued tasks of the cold head's identity are estimated from the same profile, which has no
      observations: so they have no expected duration, and at least the memory that profile allows. */
  ghost predicate Queueable(tasks: seq<PendingEntry>, head: PendingEntry, p: Profile) {
    && AllExecutable(tasks)
    && (forall i :: 0 <= i < |tasks| && tasks[i].identity == head.identity ==>
          tasks[i].duration == None && tasks[i].memory >= Least(p))
  }

  /** That is what estimates without observations are like, and the least of them is reached. */
  lemma UnobservedEstimates(p: Profile, memoryHint: Option<real>, vramHint: Option<real>)
    requires p.observations == []
    ensures var e := EstimateFrom(p, memoryHint, vramHint); e.duration == None && e.memory >= Least(p)
    ensures EstimateFrom(p, Some(0.0), None).memory == Least(p) && EstimateFrom(p, Some(0.0), None).vram == 0.0
  {
    EstimateRespectsFloor(p, memoryHint, vramHint);
  }

  /** Exactly when a waiting head can be overtaken by its own identity, over every queue of the
      executor: it is cold, there is a slot and more memory now than the least estimate of its profile,
      and its reservation would leave it room beside that and a slot more.  Without observations nobody
      is expected to end in time, so it is always for good. */
  lemma CanBeOvertaken(cap: Capacity, st: PlanState, head: PendingEntry, r: Moment, p: Profile, forGood: bool)
    ensures (exists candidates :: Queueable(candidates, head, p) &&
               Overtaken(st, Backfill(cap, st, head, r, candidates), head, forGood)) <==>
            head.cold && head.identity.Some? && RoomNow(cap, st, Least(p)) && RoomBeside(cap, st, head, r, Least(p))
  {
    if candidates :| Queueable(candidates, head, p)
                     && Overtaken(st, Backfill(cap, st, head, r, candidates), head, forGood) {
      OvertakenExactly(cap, st, head, r, candidates, forGood);
      var k :| SiblingPasses(cap, st, head, r, candidates, forGood, k);
      PassingNeedsRoom(cap, st, head, r, candidates, Least(p), forGood, k);
    }
    if head.cold && head.identity.Some? && Exposed(cap, st, head, r, Least(p), true) {
      var c := LeastSibling(head, r, Least(p), true);
      LeastSiblingPasses(cap, st, head, r, Least(p), true);
      assert Queueable([c], head, p);
      assert Overtaken(st, Backfill(cap, st, head, r, [c]), head, forGood);
    }
  }

  // ----- the clamp, over a run -----

  /** In any cycle that finds a task of a cold head's identity in flight, the canary blocks the head and
      the plan does not start it, wherever in the queue it stands. */
  lemma SiblingClamps(m: Machine, w: World, head: PendingEntry, sibling: Task)
    requires head.cold && head.identity.Some? && sibling.entry.identity == head.identity && sibling in w.tasks
    ensures CanaryBlocked(HeldBy(Running(w.tasks, w.now)), head)
    ensures forall i :: 0 <= i < |PlanAt(m, w).admitted| ==> PlanAt(m, w).admitted[i].task != head
  {
    var running := Running(w.tasks, w.now);
    var k :| 0 <= k < |w.tasks| && w.tasks[k] == sibling;
    assert Holding(w.tasks, head.identity);
    RunningReflects(w.tasks, w.now, head);
    EveryDecisionJustified(w.queue, running, CapacityOf(m, w));
    var admitted := PlanAt(m, w).admitted;
    forall i | 0 <= i < |admitted| ensures admitted[i].task != head {
      assert JustifiedAt(CapacityOf(m, w), StartAt(m, w).pools, HeldBy(running), admitted, i);
    }
  }

  /** Some cycles of a run, after which `sibling`, planned in the first of them, is still in flight. */
  ghost predicate StillFlying(m: Machine, trace: seq<World>, a: Placement, sibling: Task) {
    && |trace| > 1 && a in PlanAt(m, trace[0]).admitted && sibling == Task(a.task, a.gpu, trace[0].now)
    && (forall k :: 0 <= k < |trace| - 1 ==> Next(m, trace[k], trace[k + 1]))
    && (forall k :: 1 <= k < |trace| ==> a.task !in trace[k].queue)
    && sibling in trace[|trace| - 1].tasks
  }

  /** What is in flight was in flight a cycle ago, or was planned then. */
  lemma WasFlyingOrPlanned(m: Machine, w: World, w': World, task: Task)
    requires Next(m, w, w') && task in w'.tasks && task.entry !in w.queue
    ensures task in w.tasks
  {
    var admitted := PlanAt(m, w).admitted;
    SubMembers(w'.tasks, w.tasks + Shipped(admitted, w.now));
    PlanBeginsWithFifo(m, w);
    assert forall i :: 0 <= i < |admitted| ==> Shipped(admitted, w.now)[i].entry in w.queue;
  }

  lemma {:induction false} FliesThroughout(m: Machine, trace: seq<World>, a: Placement, sibling: Task, k: int)
    requires StillFlying(m, trace, a, sibling) && 1 <= k < |trace|
    ensures sibling in trace[k].tasks
    decreases |trace| - k
  {
    if k < |trace| - 1 {
      FliesThroughout(m, trace, a, sibling, k + 1);
      assert Next(m, trace[k], trace[k + 1]);
      WasFlyingOrPlanned(m, trace[k], trace[k + 1], sibling);
    }
  }

  /** An overtaken head waits for as long as the overtaking task runs.  Over any run in which a cycle
      plans a task of a cold head's identity and that task, queued only once, is still in flight at
      the end, every later cycle has the canary blocking the head and starts it nowhere. */
  lemma OvertakenIsClamped(m: Machine, trace: seq<World>, head: PendingEntry, a: Placement, sibling: Task)
    requires head.cold && head.identity.Some? && a.task.identity == head.identity && StillFlying(m, trace, a, sibling)
    ensures forall k :: 1 <= k < |trace| ==>
      && CanaryBlocked(HeldBy(Running(trace[k].tasks, trace[k].now)), head)
      && !Planned(m, trace[k], head)
  {
    forall k | 1 <= k < |trace|
      ensures CanaryBlocked(HeldBy(Running(trace[k].tasks, trace[k].now)), head) && !Planned(m, trace[k], head)
    {
      FliesThroughout(m, trace, a, sibling, k);
      SiblingClamps(m, trace[k], head, sibling);
    }
  }

  // ----- a head that FIFO would have started -----

  const TEN_GB := Machine(Finite(10.0), map[], [], 4, true)
  const RUNNER := Task(PendingEntry("runner", 9.0, 0.0, 1.0, Some(10.0), false, Some("g"), false), None, 0.0)
  const COLD := PendingEntry("head", 1.5, 0.0, 1.0, None, false, Some("f"), true)
  const HINTED := PendingEntry("hinted", 0.75, 0.0, 1.0, None, false, Some("f"), false)
  const BEFORE := World(0.0, [RUNNER], [COLD, HINTED], 0)

  /** These are the estimates of a function without history: the default, and a hint of 0.5 GB. */
  lemma EstimatesWithoutHistory()
    ensures EstimateFrom(EMPTY, None, None)
         == Estimate(COLD.memory, COLD.vram, COLD.cpu, 0.0, COLD.duration)
    ensures EstimateFrom(EMPTY, Some(0.5), None)
         == Estimate(HINTED.memory, HINTED.vram, HINTED.cpu, 0.0, HINTED.duration)
  {
  }

  /** A cold head with the default estimate waits for a runner to release; a task of the same function
      submitted with a hint of half a gigabyte is let past it by rule (a).  When the runner is done the
      head has all it needs, also beside the hinted task; strict FIFO starts it, and this scheduler
      does not for as long as the hinted task runs. */
  lemma FifoWouldHaveStartedIt()
    ensures PlanAt(TEN_GB, BEFORE).admitted == [Placement(HINTED, None, Disjoint)] && FifoAt(TEN_GB, BEFORE) == []
    ensures FifoWins(TEN_GB, BEFORE, World(10.0, [Task(HINTED, None, 0.0)], [COLD], 0),
                     World(10.0, [], [COLD, HINTED], 0), COLD)
    ensures Fits(CapacityOf(TEN_GB, BEFORE), COLD, Committed(TEN_GB.Idle(), [Task(HINTED, None, 0.0)]))
    ensures forall now :: !Planned(TEN_GB, World(now, [Task(HINTED, None, 0.0)], [COLD], 0), COLD)
  {
    HintedIsLetPast();
    HeadMayStart();
    NeverWhileHintedRuns();
    hide PlanAt, FifoAt, MayStart, Committed, Fits, Planned;
    FifoWinsBy();
  }

  lemma NeverWhileHintedRuns()
    ensures forall now :: !Planned(TEN_GB, World(now, [Task(HINTED, None, 0.0)], [COLD], 0), COLD)
  {
    var hinted := Task(HINTED, None, 0.0);
    hide PlanAt;
    forall now ensures !Planned(TEN_GB, World(now, [hinted], [COLD], 0), COLD) {
      assert hinted in [hinted];
      SiblingClamps(TEN_GB, World(now, [hinted], [COLD], 0), COLD, hinted);
    }
  }

  lemma FifoWinsBy()
    requires PlanAt(TEN_GB, BEFORE).admitted == [Placement(HINTED, None, Disjoint)] && FifoAt(TEN_GB, BEFORE) == []
    requires MayStart(TEN_GB, [], COLD) && !Planned(TEN_GB, World(10.0, [Task(HINTED, None, 0.0)], [COLD], 0), COLD)
    ensures FifoWins(TEN_GB, BEFORE, World(10.0, [Task(HINTED, None, 0.0)], [COLD], 0),
                     World(10.0, [], [COLD, HINTED], 0), COLD)
  {
    var m, hinted := TEN_GB, Task(HINTED, None, 0.0);
    hide PlanAt, FifoAt, Passers, Sub, Shipped, MayStart, Planned;
    FifoStartsExactly(m, World(10.0, [], [COLD, HINTED], 0), COLD);
    HintedFollows();
    PlanBeginsWithFifo(m, BEFORE);
    assert [] + [hinted] == [hinted] && [] + Passers(m, BEFORE) == Passers(m, BEFORE);
  }

  /** The head may start once the runner is gone; there would be room beside the hinted task too. */
  lemma HeadMayStart()
    ensures MayStart(TEN_GB, [], COLD)
    ensures Fits(CapacityOf(TEN_GB, BEFORE), COLD, Committed(TEN_GB.Idle(), [Task(HINTED, None, 0.0)]))
  {
    var hinted := Task(HINTED, None, 0.0);
    assert [hinted][..0] == [] && Committed(TEN_GB.Idle(), []) == TEN_GB.Idle();
    assert Committed(TEN_GB.Idle(), [hinted]) == Pools(Finite(9.25), map[], 1);
  }

  /** With the runner finished, what either scheduler finds follows from what it shipped. */
  lemma HintedFollows()
    ensures var hinted := Task(HINTED, None, 0.0);
      && Shipped([Placement(HINTED, None, Disjoint)], 0.0) == [hinted] && Sub([hinted], [hinted])
      && Sub([hinted], [RUNNER] + [hinted]) && Sub([], [RUNNER] + Shipped([], 0.0))
  {
    var hinted := Task(HINTED, None, 0.0);
    assert [hinted][..0] == [] && [RUNNER][..0] == [] && Sub([], [RUNNER]);
    assert [RUNNER] + [hinted] == [RUNNER, hinted] && [RUNNER, hinted][..1] == [RUNNER];
    assert [RUNNER] + Shipped([], 0.0) == [RUNNER];
  }

  lemma HintedIsLetPast()
    ensures PlanAt(TEN_GB, BEFORE).admitted == [Placement(HINTED, None, Disjoint)] && FifoAt(TEN_GB, BEFORE) == []
  {
    var m, w := TEN_GB, BEFORE;
    var cap, st := CapacityOf(m, w), StartAt(m, w);
    assert [RUNNER][..0] == [] && Committed(m.Idle(), [RUNNER]) == Pools(Finite(1.0), map[], 1);
    var running := Running([RUNNER], 0.0);
    assert running == [Runs.RunningOf(RUNNER, 0.0)] && running[..0] == [];
    RunningReflects(w.tasks, 0.0, COLD);
    assert !Holding(w.tasks, COLD.identity) && st.pools == Pools(Finite(1.0), map[], 1);
    FifoStartsExactly(m, w, COLD);
    FitsIsComputed(cap, COLD, st.pools, st.rr);
    assert AdmitFront(cap, st) == (st, Blocked);
    assert ReleaseTimes(running) == [10.0];
    assert StateAt(st.pools, running[..0], At(10.0)) == st.pools;
    assert StateAt(st.pools, running, At(10.0)) == Pools(Finite(10.0), map[], 0);
    assert Reservation(cap, COLD, st) == At(10.0);
    assert st.queue[1..] == [HINTED] && [HINTED][..0] == [];
    assert Backfill(cap, st, COLD, At(10.0), []) == st;
    assert HeadStillFitsWithHold(cap, st, COLD, HINTED, None, At(10.0));
    assert BackfillOne(cap, st, COLD, At(10.0), HINTED) == Admit(st, HINTED, Choice(None, 0), Disjoint);
  }
}
