/** Strict FIFO beside this scheduler, from a cycle on in which both agree: when what the cycle backfills
    can make a task at the front start later than strict FIFO would, and when it cannot make a head that
    waits there already.  Whole runs, and tasks anywhere in the queue, are the subject of `Races`. */
module Fairness {
  import opened Quantities
  import opened Admission
  import opened Planning
  import opened Reservations
  import opened StrictFifo
  import opened Plans
  import opened Runs
  import opened Turns

  // ----- strict FIFO, cycle after cycle -----

  /** As `Next`, for an executor that runs strict FIFO: what it starts may be shipped, and any task
      in flight may finish. */
  ghost predicate FifoNext(m: Machine, w: World, w': World) {
    && w.now <= w'.now
    && Sub(w'.tasks, w.tasks + Shipped(FifoAt(m, w), w.now))
  }

  /** In this cycle strict FIFO starts the head, before anything else. */
  ghost predicate FifoStarts(m: Machine, w: World, head: PendingEntry) {
    FifoAt(m, w) != [] && FifoAt(m, w)[0].task == head
  }

  lemma PlanBeginsWithFifo(m: Machine, w: World)
    ensures FifoAt(m, w) <= PlanAt(m, w).admitted && PlanAt(m, w).admitted == FifoAt(m, w) + Passers(m, w)
    ensures forall i :: 0 <= i < |PlanAt(m, w).admitted| ==> PlanAt(m, w).admitted[i].task in w.queue
  {
    PlanIsFifoThenPassers(m, w);
    hide Passers;
    if !AnyExclusive(Running(w.tasks, w.now)) {
      var at := PlanRefinesFifo(w.queue, Running(w.tasks, w.now), CapacityOf(m, w));
      forall i | 0 <= i < |PlanAt(m, w).admitted| ensures PlanAt(m, w).admitted[i].task in w.queue {
        assert w.queue[at[i]] in w.queue;
      }
    }
  }

  // ----- who starts the front task -----

  /** The front task may start beside `tasks`. */
  ghost predicate MayStart(m: Machine, tasks: seq<Task>, head: PendingEntry) {
    && (forall i :: 0 <= i < |tasks| ==> !tasks[i].entry.exclusive)
    && !(head.cold && head.identity.Some? && Holding(tasks, head.identity))
    && Fits(CapacityOf(m, World(0.0, [], [], 0)), head, Committed(m.Idle(), tasks))
  }

  /** Some task in flight holds the identity. */
  ghost predicate Holding(tasks: seq<Task>, identity: Option<string>) {
    exists i :: 0 <= i < |tasks| && tasks[i].entry.identity == identity
  }

  lemma RunningReflects(tasks: seq<Task>, now: real, head: PendingEntry)
    ensures AnyExclusive(Running(tasks, now)) <==> exists i :: 0 <= i < |tasks| && tasks[i].entry.exclusive
    ensures CanaryBlocked(HeldBy(Running(tasks, now)), head) <==>
      head.cold && head.identity.Some? && Holding(tasks, head.identity)
  {
    var running := Running(tasks, now);
    forall i | 0 <= i < |tasks|
      ensures running[i] in running && running[i].exclusive == tasks[i].entry.exclusive
      ensures running[i].identity == tasks[i].entry.identity
    {
    }
    if Holding(tasks, head.identity) && head.identity.Some? {
      var i :| 0 <= i < |tasks| && tasks[i].entry.identity == head.identity;
      assert running[i].identity.value in HeldBy(running);
    }
  }

  /** Strict FIFO starts the front task exactly when it may start beside what is in flight. */
  lemma FifoStartsExactly(m: Machine, w: World, head: PendingEntry)
    requires w.queue != [] && w.queue[0] == head
    ensures FifoStarts(m, w, head) <==> MayStart(m, w.tasks, head)
    ensures FifoAt(m, w) == [] <==> !MayStart(m, w.tasks, head)
  {
    var running, cap := Running(w.tasks, w.now), CapacityOf(m, w);
    CommittedSlots(m.Idle(), w.tasks);
    RunningReflects(w.tasks, w.now, head);
    FifoStartsFrontExactly(w.queue, running, cap);
    if !AnyExclusive(running) {
      FifoIsPrefix(cap, w.queue, Pools(cap.memoryFree, cap.gpuFree, cap.runningCount), HeldBy(running), cap.nextGpu);
    }
  }

  /** A front task that may start is planned first; alone in the queue, exactly then. */
  lemma PlannedExactly(m: Machine, w: World, head: PendingEntry)
    requires w.queue != [] && w.queue[0] == head
    ensures MayStart(m, w.tasks, head) ==> Planned(m, w, head)
    ensures w.queue == [head] && Planned(m, w, head) ==> MayStart(m, w.tasks, head)
  {
    FifoStartsExactly(m, w, head);
    PlanBeginsWithFifo(m, w);
    var running := Running(w.tasks, w.now);
    if w.queue == [head] && Planned(m, w, head) && !AnyExclusive(running) {
      var at := PlanRefinesFifo(w.queue, running, CapacityOf(m, w));
    }
  }

  // ----- more in flight, less room -----

  lemma {:induction false} FewerCommitted(p: Pools, xs: seq<Task>, ys: seq<Task>)
    requires Sub(xs, ys) && TasksSized(ys)
    ensures Roomier(Committed(p, ys), Committed(p, xs))
    decreases |ys|
  {
    if ys != [] {
      var pre, task := ys[..|ys| - 1], ys[|ys| - 1];
      var m, v, g := task.entry.memory, task.entry.vram, task.gpu;
      if Sub(xs, pre) {
        FewerCommitted(p, xs, pre);
        TakeShrinks(Committed(p, pre), m, v, g);
        RoomierTransitive(Committed(p, ys), Committed(p, pre), Committed(p, xs));
      } else {
        FewerCommitted(p, xs[..|xs| - 1], pre);
        TakeMonotone(Committed(p, pre), Committed(p, xs[..|xs| - 1]), m, v, g);
      }
    }
  }

  /** What may start beside more may start beside fewer. */
  lemma FewerMayStart(m: Machine, xs: seq<Task>, ys: seq<Task>, head: PendingEntry)
    requires Sub(xs, ys) && TasksSized(ys) && MayStart(m, ys, head)
    ensures MayStart(m, xs, head)
  {
    SubMembers(xs, ys);
    FewerCommitted(m.Idle(), xs, ys);
    FitsMonotone(CapacityOf(m, World(0.0, [], [], 0)), head, Committed(m.Idle(), ys), Committed(m.Idle(), xs));
    forall i | 0 <= i < |xs|
      ensures !xs[i].entry.exclusive && exists j :: 0 <= j < |ys| && ys[j] == xs[i]
    {
      assert xs[i] in ys;
    }
  }

  // ----- when strict FIFO wins -----

  /** `w'` and `fifo` are what this scheduler and strict FIFO may find at one and the same later
      moment, the same tasks having finished, with `head` at the front of the queue; strict FIFO
      starts the head, and this scheduler does not. */
  ghost predicate FifoWins(m: Machine, w: World, w': World, fifo: World, head: PendingEntry) {
    && Next(m, w, w') && FifoNext(m, w, fifo) && w'.now == fifo.now
    && (exists more :: Sub(more, Shipped(Passers(m, w), w.now)) && w'.tasks == fifo.tasks + more)
    && w'.queue != [] && w'.queue[0] == head && fifo.queue != [] && fifo.queue[0] == head
    && FifoStarts(m, fifo, head) && !Planned(m, w', head)
  }

  /** Without what the plan starts beyond strict FIFO the head could start beside `left`, and with
      it, it could not: a task of a cold head's identity is among it, or it takes room the head needs. */
  ghost predicate CrowdedOut(m: Machine, w: World, left: seq<Task>, head: PendingEntry) {
    var more := Shipped(Passers(m, w), w.now);
    && Sub(left, w.tasks + Shipped(FifoAt(m, w), w.now)) && MayStart(m, left, head)
    && (|| (head.cold && head.identity.Some? && Holding(more, head.identity))
        || !Fits(CapacityOf(m, w), head, Committed(m.Idle(), left + more)))
  }

  lemma HoldingJoined(xs: seq<Task>, ys: seq<Task>, identity: Option<string>)
    ensures Holding(xs + ys, identity) <==> Holding(xs, identity) || Holding(ys, identity)
  {
    if i :| 0 <= i < |xs| && xs[i].entry.identity == identity { assert (xs + ys)[i] == xs[i]; }
    if i :| 0 <= i < |ys| && ys[i].entry.identity == identity { assert (xs + ys)[|xs| + i] == ys[i]; }
  }

  /** The head's own chances beside `left` and what the plan starts beyond strict FIFO. */
  lemma CrowdedOutMeansBlocked(m: Machine, w: World, left: seq<Task>, head: PendingEntry)
    requires Sub(left, w.tasks + Shipped(FifoAt(m, w), w.now)) && MayStart(m, left, head)
    requires forall i :: 0 <= i < |Passers(m, w)| ==> !Passers(m, w)[i].task.exclusive
    ensures CrowdedOut(m, w, left, head) <==> !MayStart(m, left + Shipped(Passers(m, w), w.now), head)
  {
    HoldingJoined(left, Shipped(Passers(m, w), w.now), head.identity);
  }

  /** Backfill starts no exclusive task. */
  lemma ExtraIsNotExclusive(m: Machine, w: World)
    requires AllSized(w.queue)
    ensures forall i :: 0 <= i < |Passers(m, w)| ==> !Passers(m, w)[i].task.exclusive
  {
    var running, cap := Running(w.tasks, w.now), CapacityOf(m, w);
    PlanBeginsWithFifo(m, w);
    ExclusiveRunsAlone(w.queue, running, cap);
    forall i | 0 <= i < |Passers(m, w)| && Passers(m, w)[i].task.exclusive ensures false {
      assert PlanAt(m, w).admitted[|FifoAt(m, w)| + i] == Passers(m, w)[i];
      assert running == [] && w.queue != [];
      RunningReflects(w.tasks, w.now, w.queue[0]);
      FifoStartsFrontExactly(w.queue, running, cap);
      IdleMachineStalls(w.queue, cap);
    }
  }

  lemma ShippedSized(m: Machine, w: World)
    requires AllSized(w.queue) && TasksSized(w.tasks)
    ensures Shipped(PlanAt(m, w).admitted, w.now) == Shipped(FifoAt(m, w), w.now) + Shipped(Passers(m, w), w.now)
    ensures TasksSized(w.tasks + Shipped(PlanAt(m, w).admitted, w.now))
  {
    PlanBeginsWithFifo(m, w);
    var admitted := PlanAt(m, w).admitted;
    hide PlanAt, FifoAt, Passers;
    forall i | 0 <= i < |admitted| ensures Sized(admitted[i].task) {
      assert admitted[i].task in w.queue;
    }
  }

  /** Blocked beside some of `extra`, blocked beside all of it. */
  lemma BlockedBesideAll(m: Machine, left: seq<Task>, more: seq<Task>, extra: seq<Task>, head: PendingEntry)
    requires Sub(more, extra) && TasksSized(left + extra) && !MayStart(m, left + more, head)
    ensures !MayStart(m, left + extra, head)
  {
    SubAfter(left, more, extra);
    if MayStart(m, left + extra, head) {
      FewerMayStart(m, left + more, left + extra, head);
    }
  }

  /** Where strict FIFO wins, the head was crowded out of what was left. */
  lemma WinningCrowdsOut(m: Machine, w: World, w': World, fifo: World, head: PendingEntry)
    requires AllSized(w.queue) && TasksSized(w.tasks)
    requires FifoWins(m, w, w', fifo, head)
    ensures CrowdedOut(m, w, fifo.tasks, head)
  {
    hide PlanAt, FifoAt, Passers, Planned, FifoStarts, MayStart, CrowdedOut, Shipped, TasksSized;
    var extra, started := Shipped(Passers(m, w), w.now), w.tasks + Shipped(FifoAt(m, w), w.now);
    FifoStartsExactly(m, fifo, head);
    PlannedExactly(m, w', head);
    ShippedSized(m, w);
    ExtraIsNotExclusive(m, w);
    assert started + extra == w.tasks + Shipped(PlanAt(m, w).admitted, w.now);
    SubJoin(fifo.tasks, started, extra);
    SubSized(fifo.tasks + extra, started + extra);
    var more :| Sub(more, extra) && w'.tasks == fifo.tasks + more;
    BlockedBesideAll(m, fifo.tasks, more, extra, head);
    CrowdedOutMeansBlocked(m, w, fifo.tasks, head);
  }

  lemma {:induction false} SubJoin(xs: seq<Task>, ys: seq<Task>, more: seq<Task>)
    requires Sub(xs, ys)
    ensures Sub(xs + more, ys + more)
  {
    if more == [] {
      assert xs + more == xs && ys + more == ys;
    } else {
      var pre, last := more[..|more| - 1], more[|more| - 1];
      SubJoin(xs, ys, pre);
      assert xs + more == (xs + pre) + [last] && ys + more == (ys + pre) + [last];
      SubSnoc(xs + pre, ys + pre, last);
    }
  }

  lemma SubSized(xs: seq<Task>, ys: seq<Task>)
    requires Sub(xs, ys) && TasksSized(ys)
    ensures TasksSized(xs)
  {
    SubMembers(xs, ys);
    forall i | 0 <= i < |xs| ensures Sized(xs[i].entry) {
      assert xs[i] in ys;
    }
  }

  /** A head that would be crowded out of what is left loses to strict FIFO as soon as that is all
      that is left, which may be at once. */
  lemma CrowdingOutLoses(m: Machine, w: World, left: seq<Task>, head: PendingEntry) returns (w': World, fifo: World)
    requires AllSized(w.queue) && TasksSized(w.tasks)
    requires CrowdedOut(m, w, left, head)
    ensures FifoWins(m, w, w', fifo, head) && w'.now == w.now && fifo.tasks == left
  {
    hide PlanAt, FifoAt, Passers, MayStart, Planned, FifoStarts, Shipped, TasksSized, Committed, Fits;
    var extra := Shipped(Passers(m, w), w.now);
    var started := w.tasks + Shipped(FifoAt(m, w), w.now);
    w' := World(w.now, left + extra, [head], w.nextGpu);
    fifo := World(w.now, left, [head], w.nextGpu);
    ShippedSized(m, w);
    ExtraIsNotExclusive(m, w);
    CrowdedOutMeansBlocked(m, w, left, head);
    FifoStartsExactly(m, fifo, head);
    PlannedExactly(m, w', head);
    hide CrowdedOut;
    SubJoin(left, started, extra);
    assert started + extra == w.tasks + Shipped(PlanAt(m, w).admitted, w.now);
    SubReflexive(extra);
  }

  /** Exactly when what a cycle starts can keep a task that comes to the front of both queues from
      starting there when strict FIFO starts it, the two having agreed until this cycle.  Whatever the tasks,
      the queue and the plan, there are later moments at which strict FIFO starts `head` from the
      front of the queue and this scheduler does not, if and only if some of the tasks that are in
      flight, or that strict FIFO starts now, would by themselves leave the head free to start, and
      together with what this plan starts beyond strict FIFO would not. */
  lemma FifoWinsExactly(m: Machine, w: World, head: PendingEntry)
    requires AllSized(w.queue) && TasksSized(w.tasks)
    ensures (exists w', fifo :: FifoWins(m, w, w', fifo, head)) <==> (exists left :: CrowdedOut(m, w, left, head))
  {
    PlanBeginsWithFifo(m, w);
    if w', fifo :| FifoWins(m, w, w', fifo, head) {
      WinningCrowdsOut(m, w, w', fifo, head);
    }
    if left :| CrowdedOut(m, w, left, head) {
      var w', fifo := CrowdingOutLoses(m, w, left, head);
    }
  }

  // ----- a case in which it does -----

  const FIFTY_GB := Machine(Finite(50.0), map[], [], 4, true)
  const LONG := Task(PendingEntry("long", 30.0, 0.0, 1.0, Some(100.0), false, Some("f"), false), None, 0.0)
  const BIG := PendingEntry("big", 40.0, 0.0, 1.0, Some(10.0), false, Some("g"), false)
  const SHORT := PendingEntry("short", 15.0, 0.0, 1.0, Some(90.0), false, Some("h"), false)
  const AT_FIRST := World(0.0, [LONG], [BIG, SHORT], 0)

  /** 30 of 50 GB are held for an estimated 100 s, so a task of 90 s is let past the 40 GB head by
      rule (b).  The holder finishes after one second: strict FIFO starts the head then, and this
      scheduler cannot for as long as the backfilled task keeps to its estimate.  Every task is warm,
      and none outlives its estimate. */
  lemma FifoStartsItEarlier()
    ensures PlanAt(FIFTY_GB, AT_FIRST).admitted == [Placement(SHORT, None, ShortEnough)]
    ensures FifoAt(FIFTY_GB, AT_FIRST) == []
    ensures FifoWins(FIFTY_GB, AT_FIRST, World(1.0, [Task(SHORT, None, 0.0)], [BIG], 0),
                     World(1.0, [], [BIG, SHORT], 0), BIG)
    ensures forall now :: !Planned(FIFTY_GB, World(now, [Task(SHORT, None, 0.0)], [BIG], 0), BIG)
  {
    var m, short := FIFTY_GB, Task(SHORT, None, 0.0);
    ShortIsLetPast();
    BigMayStart();
    var mine, fifo := World(1.0, [short], [BIG], 0), World(1.0, [], [BIG, SHORT], 0);
    FifoStartsExactly(m, fifo, BIG);
    PlannedExactly(m, mine, BIG);
    WorldsFollow();
    forall now ensures !Planned(m, World(now, [short], [BIG], 0), BIG) {
      PlannedExactly(m, World(now, [short], [BIG], 0), BIG);
    }
    PlanBeginsWithFifo(m, AT_FIRST);
    hide PlanAt, FifoAt, Passers, Sub, Shipped, MayStart, Committed, Fits;
    assert [] + [short] == [short] && [] + Passers(m, AT_FIRST) == Passers(m, AT_FIRST);
  }

  /** The big task may start alone, and not beside the short one. */
  lemma BigMayStart()
    ensures MayStart(FIFTY_GB, [], BIG) && !MayStart(FIFTY_GB, [Task(SHORT, None, 0.0)], BIG)
  {
    var short := Task(SHORT, None, 0.0);
    assert [short][..0] == [] && Committed(FIFTY_GB.Idle(), []) == FIFTY_GB.Idle();
    assert Committed(FIFTY_GB.Idle(), [short]).memory == Finite(35.0);
  }

  /** With the long task finished, what either scheduler finds follows from what it shipped. */
  lemma WorldsFollow()
    ensures var short := Task(SHORT, None, 0.0);
      && Shipped([Placement(SHORT, None, ShortEnough)], 0.0) == [short] && Sub([short], [short])
      && Sub([short], [LONG] + [short]) && Sub([], [LONG] + Shipped([], 0.0))
  {
    var short := Task(SHORT, None, 0.0);
    assert [short][..0] == [] && [LONG][..0] == [] && Sub([], [LONG]);
    assert [LONG] + [short] == [LONG, short] && [LONG, short][..1] == [LONG];
    assert [LONG] + Shipped([], 0.0) == [LONG];
  }

  lemma ShortIsLetPast()
    ensures PlanAt(FIFTY_GB, AT_FIRST).admitted == [Placement(SHORT, None, ShortEnough)]
    ensures FifoAt(FIFTY_GB, AT_FIRST) == []
  {
    var m, w := FIFTY_GB, AT_FIRST;
    var cap, st := CapacityOf(m, w), StartAt(m, w);
    assert [LONG][..0] == [] && Committed(m.Idle(), [LONG]) == Pools(Finite(20.0), map[], 1);
    var running := Running([LONG], 0.0);
    assert running == [RunningOf(LONG, 0.0)] && running[..0] == [];
    assert !AnyExclusive(running) && st.pools == Pools(Finite(20.0), map[], 1);
    assert AdmitFront(cap, st) == (st, Blocked);
    FrontIsFifo(cap, st);
    assert ReleaseTimes(running) == [100.0];
    assert StateAt(st.pools, [], At(100.0)) == st.pools;
    assert StateAt(st.pools, running, At(100.0)) == Pools(Finite(50.0), map[], 0);
    assert Reservation(cap, BIG, st) == At(100.0);
    assert st.queue[1..] == [SHORT] && [SHORT][..0] == [];
    assert Backfill(cap, st, BIG, At(100.0), []) == st;
    assert BackfillOne(cap, st, BIG, At(100.0), SHORT) == Admit(st, SHORT, Choice(None, 0), ShortEnough);
  }

  // ----- when tasks keep to their estimates -----

  /** The tasks that are still in flight at `when` if each runs exactly its estimate. */
  function StillHolding(tasks: seq<Task>, when: real): seq<Task> {
    if tasks == [] then []
    else
      var task := tasks[|tasks| - 1];
      StillHolding(tasks[..|tasks| - 1], when) + (if Holds(task, when) then [task] else [])
  }

  lemma {:induction false} HoldingIsFree(p: Pools, tasks: seq<Task>, when: real)
    ensures Committed(p, StillHolding(tasks, when)) == FreeAt(p, tasks, when)
  {
    if tasks != [] {
      var pre, task := tasks[..|tasks| - 1], tasks[|tasks| - 1];
      HoldingIsFree(p, pre, when);
      var held := StillHolding(pre, when);
      assert (held + [task])[..|held|] == held && held + [] == held;
    }
  }

  /** Nothing in flight at `w` has finished before its estimate by `later`. */
  ghost predicate NoneEarly(w: World, later: World) {
    Sub(StillHolding(w.tasks, later.now), later.tasks)
  }

  /** If nothing finishes early, strict FIFO starts a waiting head no sooner than its reservation. */
  lemma FifoNoSooner(m: Machine, w: World, later: World, head: PendingEntry)
    requires Waiting(m, w, head) && NoneEarly(w, later) && TasksSized(later.tasks)
    requires later.queue != [] && later.queue[0] == head && FifoStarts(m, later, head)
    ensures ReservationAt(m, w, head).At? && w.now + ReservationAt(m, w, head).seconds <= later.now
  {
    FifoStartsExactly(m, later, head);
    FreeWhenDue(m, w, later, head);
  }

  lemma FreeWhenDue(m: Machine, w: World, later: World, head: PendingEntry)
    requires Waiting(m, w, head) && NoneEarly(w, later) && TasksSized(later.tasks) && MayStart(m, later.tasks, head)
    ensures ReservationAt(m, w, head).At? && w.now + ReservationAt(m, w, head).seconds <= later.now
  {
    FewerMayStart(m, StillHolding(w.tasks, later.now), later.tasks, head);
    HoldingIsFree(m.Idle(), w.tasks, later.now);
    AppointedWhenDue(m, w, head, later.now);
    hide Waiting, NoneEarly, Committed, FreeAt, StillHolding, ReservationAt;
  }

  /** Cycles of an executor that runs strict FIFO, up to one that starts `head` from the front. */
  ghost predicate FifoRun(m: Machine, trace: seq<World>, head: PendingEntry) {
    && trace != []
    && (forall i :: 0 <= i < |trace| ==> trace[i].queue != [] && trace[i].queue[0] == head)
    && (forall i :: 0 <= i < |trace| - 1 ==> FifoNext(m, trace[i], trace[i + 1]) && !FifoStarts(m, trace[i], head))
    && FifoStarts(m, trace[|trace| - 1], head)
  }

  /** While the head waits, strict FIFO starts nothing. */
  lemma {:induction false} FifoWaits(m: Machine, trace: seq<World>, head: PendingEntry, i: int)
    requires FifoRun(m, trace, head) && 0 <= i < |trace|
    ensures Sub(trace[i].tasks, trace[0].tasks)
    decreases i
  {
    if i == 0 {
      SubReflexive(trace[0].tasks);
    } else {
      FifoWaits(m, trace, head, i - 1);
      var before := trace[i - 1];
      assert FifoNext(m, before, trace[i - 1 + 1]) && !FifoStarts(m, before, head);
      FifoStartsExactly(m, before, head);
      assert before.tasks + Shipped([], before.now) == before.tasks;
      SubTransitive(trace[i].tasks, before.tasks, trace[0].tasks);
    }
  }

  /** Never later than strict FIFO, for a head that waits at the front already, if estimates are kept.
      Let `fifo` be a run of strict FIFO from there that starts the head in its last cycle, none of the
      tasks that were in flight having finished early, and let `trace` be any run of this scheduler from
      the same world, in which no task outlives its estimate, the canary does not hold the head, and
      anything may be backfilled.  Then a cycle at or after that moment that still finds the head
      unplanned plans it. */
  lemma FifoNeverSooner(m: Machine, fifo: seq<World>, trace: seq<World>, head: PendingEntry, j: int)
    requires FifoRun(m, fifo, head) && NoneEarly(fifo[0], fifo[|fifo| - 1])
    requires RunOf(m, trace, head, 0, j) && trace[0] == fifo[0] && Waiting(m, trace[0], head)
    requires fifo[|fifo| - 1].now <= trace[j].now && 0 < j && forall k :: 0 <= k < j ==> !Planned(m, trace[k], head)
    ensures Planned(m, trace[j], head)
  {
    var last := fifo[|fifo| - 1];
    FifoWaits(m, fifo, head, |fifo| - 1);
    SubSized(last.tasks, trace[0].tasks);
    FifoNoSooner(m, trace[0], last, head);
    ReservationNeverSlips(m, trace, head, 0, j);
  }
}
