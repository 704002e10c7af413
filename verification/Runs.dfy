/** Planning cycle after planning cycle on a fixed machine: the blocked head's reservation
    never moves later, and the head starts no later than it. */
module Runs {
  import opened Quantities
  import opened Admission
  import opened Planning
  import opened Reservations
  import opened Plans

  /** A machine whose capacity does not change: what it can admit with nothing in flight. */
  datatype Machine = Machine(memory: Amount, gpu: map<int, Amount>, gpuOrder: seq<int>, maxWorkers: int,
                             snapshotPresent: bool)
  {
    function Idle(): Pools {
      Pools(memory, gpu, 0)
    }
  }

  /** A task in flight since `started`. */
  datatype Task = Task(entry: PendingEntry, gpu: Option<int>, started: real)

  /** The scheduler's world at one dispatch cycle. */
  datatype World = World(now: real, tasks: seq<Task>, queue: seq<PendingEntry>, nextGpu: int)

  /** Expected seconds until a task releases; unknown once it has overrun. */
  function Remaining(task: Task, now: real): Option<real> {
    if task.entry.duration == None then None
    else if now - task.started >= task.entry.duration.value then None
    else Some(task.entry.duration.value - (now - task.started))
  }

  function RunningOf(task: Task, now: real): RunningEntry {
    RunningEntry(task.entry.id, task.entry.memory, task.entry.vram, task.gpu, Remaining(task, now),
                 task.entry.exclusive, task.entry.identity)
  }

  function Running(tasks: seq<Task>, now: real): (r: seq<RunningEntry>)
    ensures |r| == |tasks|
  {
    seq(|tasks|, i requires 0 <= i < |tasks| => RunningOf(tasks[i], now))
  }

  /** `p` with everything in `tasks` taken out: estimates stay committed while in flight. */
  function Committed(p: Pools, tasks: seq<Task>): Pools {
    if tasks == [] then p
    else
      var task := tasks[|tasks| - 1];
      Take(Committed(p, tasks[..|tasks| - 1]), task.entry.memory, task.entry.vram, task.gpu)
  }

  function CapacityOf(m: Machine, w: World): Capacity {
    var free := Committed(m.Idle(), w.tasks);
    Capacity(free.memory, free.gpu, m.gpuOrder, w.nextGpu, m.maxWorkers, |w.tasks|, m.snapshotPresent)
  }

  function PlanAt(m: Machine, w: World): PlanState {
    PlanFor(w.queue, Running(w.tasks, w.now), CapacityOf(m, w))
  }

  function Shipped(admitted: seq<Placement>, now: real): (r: seq<Task>)
    ensures |r| == |admitted|
  {
    seq(|admitted|, i requires 0 <= i < |admitted| => Task(admitted[i].task, admitted[i].gpu, now))
  }

  /** `xs` is `ys` with some elements left out. */
  ghost predicate Sub(xs: seq<Task>, ys: seq<Task>)
    decreases |ys|
  {
    if ys == [] then xs == []
    else
      || Sub(xs, ys[..|ys| - 1])
      || (xs != [] && xs[|xs| - 1] == ys[|ys| - 1] && Sub(xs[..|xs| - 1], ys[..|ys| - 1]))
  }

  /** No task has outlived its duration estimate. */
  ghost predicate Punctual(w: World) {
    forall i :: 0 <= i < |w.tasks| && w.tasks[i].entry.duration.Some? ==>
      w.now - w.tasks[i].started < w.tasks[i].entry.duration.value
  }

  /** From one cycle to a later one: planned tasks may or may not have been shipped, and any
      task in flight may have finished.  Nothing is said about the rest of the queue. */
  ghost predicate Next(m: Machine, w: World, w': World) {
    && w.now <= w'.now
    && Sub(w'.tasks, w.tasks + Shipped(PlanAt(m, w).admitted, w.now))
  }

  // ----- projections in absolute time -----

  predicate Holds(task: Task, when: real) {
    task.entry.duration == None || task.started + task.entry.duration.value > when
  }

  /** What is free at absolute time `when`, if every task runs exactly its estimate. */
  function FreeAt(p: Pools, tasks: seq<Task>, when: real): Pools {
    if tasks == [] then p
    else
      var task := tasks[|tasks| - 1];
      var q := FreeAt(p, tasks[..|tasks| - 1], when);
      if Holds(task, when) then Take(q, task.entry.memory, task.entry.vram, task.gpu) else q
  }

  ghost predicate TasksSized(tasks: seq<Task>) {
    forall i :: 0 <= i < |tasks| ==> Sized(tasks[i].entry)
  }

  lemma {:induction false} ProjectionIsFreeAt(p: Pools, tasks: seq<Task>, now: real, when: real)
    requires forall i :: 0 <= i < |tasks| && tasks[i].entry.duration.Some? ==>
      now - tasks[i].started < tasks[i].entry.duration.value
    ensures StateAt(Committed(p, tasks), Running(tasks, now), At(when - now)) == FreeAt(p, tasks, when)
  {
    if tasks != [] {
      var pre, task := tasks[..|tasks| - 1], tasks[|tasks| - 1];
      ProjectionIsFreeAt(p, pre, now, when);
      assert Running(tasks, now) == Running(pre, now) + [RunningOf(task, now)];
      OccupantProjected(Committed(p, pre), Running(pre, now), RunningOf(task, now), At(when - now));
    }
  }

  lemma FreeAtSnoc(p: Pools, tasks: seq<Task>, task: Task, when: real)
    ensures FreeAt(p, tasks + [task], when) ==
      if Holds(task, when) then Take(FreeAt(p, tasks, when), task.entry.memory, task.entry.vram, task.gpu)
      else FreeAt(p, tasks, when)
  {
    assert (tasks + [task])[..|tasks|] == tasks;
  }

  /** Shipping a plan leaves at least what the plan booked: a rule-(a) task was booked for ever. */
  lemma {:induction false} ShippedAtLeastBooked(p: Pools, tasks: seq<Task>, admitted: seq<Placement>, now: real,
                                                when: real)
    requires forall i :: 0 <= i < |tasks| && tasks[i].entry.duration.Some? ==>
      now - tasks[i].started < tasks[i].entry.duration.value
    requires forall i :: 0 <= i < |admitted| ==> Sized(admitted[i].task)
    ensures Roomier(
      StateAt(PoolsAfter(Committed(p, tasks), admitted), Running(tasks, now) + OccupantsOf(admitted), At(when - now)),
      FreeAt(p, tasks + Shipped(admitted, now), when))
  {
    var t := At(when - now);
    if admitted == [] {
      ProjectionIsFreeAt(p, tasks, now, when);
      assert Running(tasks, now) + OccupantsOf(admitted) == Running(tasks, now);
      assert tasks + Shipped(admitted, now) == tasks;
    } else {
      var pre, a := admitted[..|admitted| - 1], admitted[|admitted| - 1];
      ShippedAtLeastBooked(p, tasks, pre, now, when);
      var pools, occupants := PoolsAfter(Committed(p, tasks), pre), Running(tasks, now) + OccupantsOf(pre);
      var task := Task(a.task, a.gpu, now);
      assert Running(tasks, now) + OccupantsOf(admitted) == occupants + [OccupantOf(a)];
      assert tasks + Shipped(admitted, now) == (tasks + Shipped(pre, now)) + [task];
      OccupantProjected(pools, occupants, OccupantOf(a), t);
      FreeAtSnoc(p, tasks + Shipped(pre, now), task, when);
      var booked, free := StateAt(pools, occupants, t), FreeAt(p, tasks + Shipped(pre, now), when);
      hide StateAt, FreeAt, PoolsAfter, Committed, Running, Shipped, OccupantsOf;
      BookedStep(booked, free, a, Holds(task, when), Released(OccupantOf(a), t));
    }
  }

  lemma BookedStep(booked: Pools, free: Pools, a: Placement, holds: bool, released: bool)
    requires Roomier(booked, free) && Sized(a.task) && (holds ==> !released)
    ensures Roomier(if released then booked else Take(booked, a.task.memory, a.task.vram, a.gpu),
                    if holds then Take(free, a.task.memory, a.task.vram, a.gpu) else free)
  {
    TakeMonotone(booked, free, a.task.memory, a.task.vram, a.gpu);
    TakeShrinks(booked, a.task.memory, a.task.vram, a.gpu);
    if !holds && !released {
      RoomierTransitive(Take(booked, a.task.memory, a.task.vram, a.gpu), booked, free);
    }
  }

  /** Fewer tasks in flight leave more free. */
  lemma {:induction false} FewerTasksFree(p: Pools, xs: seq<Task>, ys: seq<Task>, when: real)
    requires Sub(xs, ys) && TasksSized(ys)
    ensures Roomier(FreeAt(p, ys, when), FreeAt(p, xs, when))
    decreases |ys|
  {
    if ys != [] {
      var pre, task := ys[..|ys| - 1], ys[|ys| - 1];
      var m, v, g := task.entry.memory, task.entry.vram, task.gpu;
      if Sub(xs, pre) {
        FewerTasksFree(p, xs, pre, when);
        TakeShrinks(FreeAt(p, pre, when), m, v, g);
        if Holds(task, when) {
          RoomierTransitive(FreeAt(p, ys, when), FreeAt(p, pre, when), FreeAt(p, xs, when));
        }
      } else {
        FewerTasksFree(p, xs[..|xs| - 1], pre, when);
        TakeMonotone(FreeAt(p, pre, when), FreeAt(p, xs[..|xs| - 1], when), m, v, g);
      }
    }
  }

  /** More time leaves more free. */
  lemma {:induction false} LaterIsFreer(p: Pools, tasks: seq<Task>, when: real, later: real)
    requires TasksSized(tasks) && when <= later
    ensures Roomier(FreeAt(p, tasks, when), FreeAt(p, tasks, later))
  {
    if tasks != [] {
      var pre, task := tasks[..|tasks| - 1], tasks[|tasks| - 1];
      LaterIsFreer(p, pre, when, later);
      var a, b := FreeAt(p, pre, when), FreeAt(p, pre, later);
      TakeMonotone(a, b, task.entry.memory, task.entry.vram, task.gpu);
      TakeShrinks(a, task.entry.memory, task.entry.vram, task.gpu);
      if Holds(task, when) && !Holds(task, later) {
        RoomierTransitive(Take(a, task.entry.memory, task.entry.vram, task.gpu), a, b);
      }
    }
  }

  lemma {:induction false} SubMembers(xs: seq<Task>, ys: seq<Task>)
    requires Sub(xs, ys)
    ensures forall x :: x in xs ==> x in ys
    decreases |ys|
  {
    if ys != [] {
      var pre := ys[..|ys| - 1];
      if Sub(xs, pre) {
        SubMembers(xs, pre);
      } else {
        SubMembers(xs[..|xs| - 1], pre);
        assert xs == xs[..|xs| - 1] + [xs[|xs| - 1]];
      }
    }
  }

  lemma {:induction false} SubReflexive(xs: seq<Task>)
    ensures Sub(xs, xs)
  {
    if xs != [] {
      SubReflexive(xs[..|xs| - 1]);
    }
  }

  lemma {:induction false} SubTransitive(xs: seq<Task>, ys: seq<Task>, zs: seq<Task>)
    requires Sub(xs, ys) && Sub(ys, zs)
    ensures Sub(xs, zs)
    decreases |zs|
  {
    if zs != [] {
      var front := zs[..|zs| - 1];
      if Sub(ys, front) {
        SubTransitive(xs, ys, front);
      } else if Sub(xs, ys[..|ys| - 1]) {
        SubTransitive(xs, ys[..|ys| - 1], front);
      } else {
        SubTransitive(xs[..|xs| - 1], ys[..|ys| - 1], front);
      }
    }
  }

  lemma {:induction false} SubAfter(a: seq<Task>, xs: seq<Task>, ys: seq<Task>)
    requires Sub(xs, ys)
    ensures Sub(a + xs, a + ys)
    decreases |ys|
  {
    if ys == [] {
      assert a + xs == a && a + ys == a;
      SubReflexive(a);
    } else {
      var front := ys[..|ys| - 1];
      assert (a + ys)[..|a + ys| - 1] == a + front;
      if Sub(xs, front) {
        SubAfter(a, xs, front);
      } else {
        SubAfter(a, xs[..|xs| - 1], front);
        assert (a + xs)[..|a + xs| - 1] == a + xs[..|xs| - 1];
      }
    }
  }

  lemma SubSnoc(xs: seq<Task>, ys: seq<Task>, t: Task)
    requires Sub(xs, ys)
    ensures Sub(xs, ys + [t]) && Sub(xs + [t], ys + [t])
  {
    assert (ys + [t])[..|ys|] == ys && (xs + [t])[..|xs|] == xs;
  }

  lemma {:induction false} NothingIsSub(ys: seq<Task>)
    ensures Sub([], ys)
  {
    if ys != [] {
      NothingIsSub(ys[..|ys| - 1]);
    }
  }

  // ----- the head's appointment -----

  /** The head would fit at absolute time `when`, should every task run its estimate. */
  ghost predicate Appointed(m: Machine, w: World, head: PendingEntry, when: real) {
    Fits(CapacityOf(m, w), head, FreeAt(m.Idle(), w.tasks, when))
  }

  /** A sane cycle with `head` at the front of the queue, not exclusive and not
      canary-blocked. */
  ghost predicate AtFront(w: World, head: PendingEntry) {
    && w.queue != [] && w.queue[0] == head && !head.exclusive
    && AllSized(w.queue) && TasksSized(w.tasks) && Punctual(w)
    && !CanaryBlocked(HeldBy(Running(w.tasks, w.now)), head)
  }

  ghost predicate NoExclusiveInFlight(w: World) {
    forall i :: 0 <= i < |w.tasks| ==> !w.tasks[i].entry.exclusive
  }

  ghost predicate FitsFree(m: Machine, w: World, head: PendingEntry) {
    Fits(CapacityOf(m, w), head, Committed(m.Idle(), w.tasks))
  }

  /** The head is at the front and what is free does not suffice for it. */
  ghost predicate Waiting(m: Machine, w: World, head: PendingEntry) {
    AtFront(w, head) && NoExclusiveInFlight(w) && !FitsFree(m, w, head)
  }

  /** This cycle's plan starts the head, before anything else. */
  ghost predicate Planned(m: Machine, w: World, head: PendingEntry) {
    PlanAt(m, w).admitted != [] && PlanAt(m, w).admitted[0].task == head
  }

  function StartAt(m: Machine, w: World): PlanState {
    Start(w.queue, Running(w.tasks, w.now), CapacityOf(m, w))
  }

  function ReservationAt(m: Machine, w: World, head: PendingEntry): Moment {
    Reservation(CapacityOf(m, w), head, StartAt(m, w))
  }

  lemma {:induction false} CommittedSlots(p: Pools, tasks: seq<Task>)
    ensures Committed(p, tasks).slots == p.slots + |tasks|
  {
    if tasks != [] {
      CommittedSlots(p, tasks[..|tasks| - 1]);
    }
  }

  lemma StartPools(m: Machine, w: World)
    ensures StartAt(m, w).pools == Committed(m.Idle(), w.tasks)
  {
    CommittedSlots(m.Idle(), w.tasks);
  }

  /** Tasks that are punctual now are all still holding now. */
  lemma {:induction false} CommittedIsFreeNow(p: Pools, tasks: seq<Task>, now: real)
    requires forall i :: 0 <= i < |tasks| && tasks[i].entry.duration.Some? ==>
      now - tasks[i].started < tasks[i].entry.duration.value
    ensures Committed(p, tasks) == FreeAt(p, tasks, now)
  {
    if tasks != [] {
      CommittedIsFreeNow(p, tasks[..|tasks| - 1], now);
    }
  }

  lemma WaitingHeadBlocks(m: Machine, w: World, head: PendingEntry)
    requires Waiting(m, w, head)
    ensures BlockedHead(w.queue, Running(w.tasks, w.now), CapacityOf(m, w), StartAt(m, w), head)
  {
    StartPools(m, w);
    FitsIsComputed(CapacityOf(m, w), head, Committed(m.Idle(), w.tasks), w.nextGpu);
  }

  /** The waiting head's appointments are exactly the times its reservation is due. */
  lemma AppointedWhenDue(m: Machine, w: World, head: PendingEntry, when: real)
    requires Waiting(m, w, head)
    ensures Appointed(m, w, head, when) <==> Due(ReservationAt(m, w, head), At(when - w.now))
  {
    StartPools(m, w);
    ProjectionIsFreeAt(m.Idle(), w.tasks, w.now, when);
    ReservationIsEarliestFit(CapacityOf(m, w), head, StartAt(m, w), At(when - w.now));
  }

  /** Whatever the cycle backfills and whatever finishes, the next cycle still finds room
      for the head at its reserved time. */
  lemma AppointmentKept(m: Machine, w: World, w': World, head: PendingEntry)
    requires Waiting(m, w, head) && Next(m, w, w') && ReservationAt(m, w, head).At?
    ensures Appointed(m, w', head, w.now + ReservationAt(m, w, head).seconds)
  {
    var r := ReservationAt(m, w, head);
    var booked := BookedAt(m, w, r);
    assert w.now + r.seconds - w.now == r.seconds;
    HeadFitsBooked(m, w, head);
    BookedIsFree(m, w, w', head, w.now + r.seconds);
    hide Fits, BookedAt, ReservationAt, FreeAt;
    FitsMonotone(CapacityOf(m, w), head, booked, FreeAt(m.Idle(), w'.tasks, w.now + r.seconds));
  }

  /** What the plan books at `t`: everything planned takes its place, everything due is released. */
  function BookedAt(m: Machine, w: World, t: Moment): Pools {
    StateAt(PlanAt(m, w).pools, Running(w.tasks, w.now) + OccupantsOf(PlanAt(m, w).admitted), t)
  }

  lemma HeadFitsBooked(m: Machine, w: World, head: PendingEntry)
    requires Waiting(m, w, head) && ReservationAt(m, w, head).At?
    ensures Fits(CapacityOf(m, w), head, BookedAt(m, w, ReservationAt(m, w, head)))
  {
    WaitingHeadBlocks(m, w, head);
    PlanNeverDelaysHead(w.queue, Running(w.tasks, w.now), CapacityOf(m, w), StartAt(m, w), head,
                        ReservationAt(m, w, head));
  }

  lemma BookedIsFree(m: Machine, w: World, w': World, head: PendingEntry, when: real)
    requires Waiting(m, w, head) && Next(m, w, w')
    ensures Roomier(BookedAt(m, w, At(when - w.now)), FreeAt(m.Idle(), w'.tasks, when))
  {
    var fin, all := PlanAt(m, w), w.tasks + Shipped(PlanAt(m, w).admitted, w.now);
    EveryDecisionJustified(w.queue, Running(w.tasks, w.now), CapacityOf(m, w));
    StartPools(m, w);
    PlannedAreSized(m, w);
    hide StateAt, FreeAt, PlanAt;
    ShippedAtLeastBooked(m.Idle(), w.tasks, fin.admitted, w.now, when);
    FewerTasksFree(m.Idle(), w'.tasks, all, when);
    RoomierTransitive(BookedAt(m, w, At(when - w.now)), FreeAt(m.Idle(), all, when), FreeAt(m.Idle(), w'.tasks, when));
  }

  lemma PlannedAreSized(m: Machine, w: World)
    requires AllSized(w.queue)
    ensures forall i :: 0 <= i < |PlanAt(m, w).admitted| ==> Sized(PlanAt(m, w).admitted[i].task)
  {
    if !AnyExclusive(Running(w.tasks, w.now)) {
      var at := PlanRefinesFifo(w.queue, Running(w.tasks, w.now), CapacityOf(m, w));
    }
  }

  /** While the head waits no exclusive task is shipped past it. */
  lemma NoExclusiveShipped(m: Machine, w: World, w': World, head: PendingEntry)
    requires Waiting(m, w, head) && Next(m, w, w')
    ensures NoExclusiveInFlight(w')
  {
    var cap, running := CapacityOf(m, w), Running(w.tasks, w.now);
    var admitted := PlanAt(m, w).admitted;
    forall i | 0 <= i < |admitted| ensures !admitted[i].task.exclusive {
      ExclusiveRunsAlone(w.queue, running, cap);
      if admitted[i].task.exclusive {
        StartPools(m, w);
        IdleMachineStalls(w.queue, cap);
      }
    }
    var all := w.tasks + Shipped(admitted, w.now);
    SubMembers(w'.tasks, all);
    forall i | 0 <= i < |w'.tasks| ensures !w'.tasks[i].entry.exclusive {
      assert w'.tasks[i] in all;
      var k :| 0 <= k < |all| && all[k] == w'.tasks[i];
      assert k < |w.tasks| ==> all[k] == w.tasks[k];
    }
  }

  /** A head that fits is planned first. */
  lemma FittingHeadIsPlanned(m: Machine, w: World, head: PendingEntry)
    requires AtFront(w, head) && NoExclusiveInFlight(w) && FitsFree(m, w, head)
    ensures Planned(m, w, head)
  {
    var cap, start := CapacityOf(m, w), StartAt(m, w);
    StartPools(m, w);
    FitsIsComputed(cap, head, start.pools, w.nextGpu);
    FrontIsPrefix(cap, FrontStep(cap, start));
    var _ := PlanRefinesFifo(w.queue, Running(w.tasks, w.now), cap);
  }

  /** An appointment that has come: at or after its time the head is planned. */
  lemma AppointmentMet(m: Machine, w: World, head: PendingEntry, when: real)
    requires AtFront(w, head) && NoExclusiveInFlight(w) && Appointed(m, w, head, when) && when <= w.now
    ensures Planned(m, w, head)
  {
    CommittedIsFreeNow(m.Idle(), w.tasks, w.now);
    LaterIsFreer(m.Idle(), w.tasks, when, w.now);
    FitsMonotone(CapacityOf(m, w), head, FreeAt(m.Idle(), w.tasks, when), FreeAt(m.Idle(), w.tasks, w.now));
    FittingHeadIsPlanned(m, w, head);
  }

  /** From one cycle to the next: the head is planned, or it waits with a finite reservation
      that is, in absolute time, no later than before. */
  lemma CycleNeverSlips(m: Machine, w: World, w': World, head: PendingEntry)
    requires Waiting(m, w, head) && ReservationAt(m, w, head).At?
    requires Next(m, w, w') && AtFront(w', head)
    ensures NoExclusiveInFlight(w')
    ensures Planned(m, w', head) ||
      (&& Waiting(m, w', head) && ReservationAt(m, w', head).At?
       && w'.now + ReservationAt(m, w', head).seconds <= w.now + ReservationAt(m, w, head).seconds)
    ensures w.now + ReservationAt(m, w, head).seconds <= w'.now ==> Planned(m, w', head)
  {
    var when := w.now + ReservationAt(m, w, head).seconds;
    AppointmentKept(m, w, w', head);
    NoExclusiveShipped(m, w, w', head);
    if when <= w'.now {
      AppointmentMet(m, w', head, when);
    }
    if FitsFree(m, w', head) {
      FittingHeadIsPlanned(m, w', head);
    } else {
      AppointedWhenDue(m, w', head, when);
    }
  }

  /** Cycles `i` to `j` of a run, with the head at the front throughout. */
  ghost predicate RunOf(m: Machine, trace: seq<World>, head: PendingEntry, i: int, j: int) {
    && 0 <= i <= j < |trace|
    && (forall k :: i <= k <= j ==> AtFront(trace[k], head))
    && (forall k :: i <= k < j ==> Next(m, trace[k], trace[k + 1]))
  }

  /** The reservation never slips over a run.  Once a blocked head has a finite reservation then,
      until it is planned, every later cycle finds it waiting with a finite reservation that
      is no later in absolute time, and any later cycle at or after the reserved time plans it. */
  lemma {:induction false} ReservationNeverSlips(m: Machine, trace: seq<World>, head: PendingEntry, i: int, j: int)
    requires RunOf(m, trace, head, i, j)
    requires Waiting(m, trace[i], head) && ReservationAt(m, trace[i], head).At?
    requires forall k :: i <= k < j ==> !Planned(m, trace[k], head)
    ensures Planned(m, trace[j], head) ||
      (&& Waiting(m, trace[j], head) && ReservationAt(m, trace[j], head).At?
       && trace[j].now + ReservationAt(m, trace[j], head).seconds
          <= trace[i].now + ReservationAt(m, trace[i], head).seconds)
    ensures i < j && trace[i].now + ReservationAt(m, trace[i], head).seconds <= trace[j].now ==>
      Planned(m, trace[j], head)
    decreases j
  {
    if i < j {
      ReservationNeverSlips(m, trace, head, i, j - 1);
      assert Next(m, trace[j - 1], trace[j - 1 + 1]);
      CycleNeverSlips(m, trace[j - 1], trace[j], head);
    }
  }
}
