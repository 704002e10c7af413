/** The planner's promise, kept by the executor: in any run on a static machine, the dispatch
    cycles form a run of the planner, so a blocked head's reservation never moves later. */
module ExecutorReservations {
  import opened Quantities
  import opened Accounting
  import opened Admission
  import opened Planning
  import opened Reservations
  import opened Plans
  import opened ExecutorState
  import opened ExecutorInvariants
  import opened ExecutorDispatch
  import opened ExecutorRuns
  import opened ExecutorRefinement
  import opened Headroom
  import Runs

  // ----- the executor's tables as the planner's world -----

  function MachineOf(cfg: Config, snapshot: Snapshot): Runs.Machine {
    Runs.Machine(Finite(snapshot.memoryTotal - snapshot.memoryUsed - cfg.memoryHeadroom),
                 map g | g in cfg.gpuIds && g in snapshot.gpus ::
                   Finite(snapshot.gpus[g].total - snapshot.gpus[g].used - cfg.vramHeadroom),
                 cfg.gpuIds, cfg.maxWorkers, true)
  }

  function TaskOf(w: Work): Runs.Task {
    Runs.Task(EntryOf(w), w.gpu, if w.startedAt.Some? then w.startedAt.value else 0.0)
  }

  function TasksOf(ws: seq<Work>): (r: seq<Runs.Task>)
    ensures |r| == |ws|
  {
    seq(|ws|, i requires 0 <= i < |ws| => TaskOf(ws[i]))
  }

  function WorldOf(s: State, now: real): Runs.World {
    Runs.World(now, TasksOf(s.inFlight), Entries(s.pending), s.nextGpu)
  }

  /** What the planner is shown in each dispatch cycle of a run. */
  function Cycles(cfg: Config, s: State, acts: seq<Action>): seq<Runs.World> {
    if acts == [] then []
    else
      var pre, a := acts[..|acts| - 1], acts[|acts| - 1];
      Cycles(cfg, s, pre)
      + (if a.ADispatch? then [WorldOf(Seen(cfg, RunFrom(cfg, s, pre), a.env), a.env.now)] else [])
  }

  // ----- the two planners see the same -----

  ghost predicate Startable(ws: seq<Work>) {
    forall w :: w in ws ==> SaneEstimate(w.estimate) && w.startedAt.Some?
  }

  lemma SentAreStartable(cfg: Config, s: State)
    requires Inv(cfg, s)
    ensures Startable(s.inFlight)
  {
    forall w | w in s.inFlight ensures SaneEstimate(w.estimate) && w.startedAt.Some? {
      assert w.id in Ids(s.inFlight) && TaskOk(cfg, s, w.id);
    }
  }

  /** The pools left on the machine by what is in flight. */
  ghost predicate LeftBy(cfg: Config, snapshot: Snapshot, ws: seq<Work>, p: Pools) {
    && p.memory == MemoryFree(cfg, Some(snapshot), ws)
    && p.gpu.Keys == MachineOf(cfg, snapshot).gpu.Keys
    && (forall g :: g in p.gpu ==> g in snapshot.gpus && p.gpu[g] == Finite(VramFree(cfg, snapshot.gpus[g], ws, g)))
  }

  lemma TakingLeaves(cfg: Config, snapshot: Snapshot, ws: seq<Work>, p: Pools, w: Work)
    requires LeftBy(cfg, snapshot, ws, p) && Unobserved([w]) && SaneEstimate(w.estimate)
    ensures LeftBy(cfg, snapshot, ws + [w], Take(p, w.estimate.memory, w.estimate.vram, w.gpu))
  {
    assert w in [w];
    CommittedSnoc(ws, w, 0);
    var q := Take(p, w.estimate.memory, w.estimate.vram, w.gpu);
    forall g | g in q.gpu
      ensures g in snapshot.gpus && q.gpu[g] == Finite(VramFree(cfg, snapshot.gpus[g], ws + [w], g))
    {
      CommittedSnoc(ws, w, g);
    }
  }

  lemma {:induction false} CommittedIsSummed(cfg: Config, snapshot: Snapshot, ws: seq<Work>)
    requires Unobserved(ws) && Startable(ws)
    ensures LeftBy(cfg, snapshot, ws, Runs.Committed(MachineOf(cfg, snapshot).Idle(), TasksOf(ws)))
  {
    if ws != [] {
      var pre, w := ws[..|ws| - 1], ws[|ws| - 1];
      assert ws == pre + [w] && w in ws;
      CommittedIsSummed(cfg, snapshot, pre);
      TasksSnoc(pre, w);
      CommittedOne(MachineOf(cfg, snapshot).Idle(), TasksOf(pre), TaskOf(w));
      var p := Runs.Committed(MachineOf(cfg, snapshot).Idle(), TasksOf(pre));
      hide LeftBy, Runs.Committed, MachineOf, TasksOf;
      TakingLeaves(cfg, snapshot, pre, p, w);
    }
  }

  lemma CommittedOne(p: Pools, tasks: seq<Runs.Task>, task: Runs.Task)
    ensures Runs.Committed(p, tasks + [task]) ==
      Take(Runs.Committed(p, tasks), task.entry.memory, task.entry.vram, task.gpu)
  {
    assert (tasks + [task])[..|tasks|] == tasks;
  }

  lemma RunningIsSame(ws: seq<Work>, now: real)
    requires Unobserved(ws) && Startable(ws)
    ensures RunningEntries(ws, now) == Runs.Running(TasksOf(ws), now)
  {
    forall i | 0 <= i < |ws| ensures RunningEntries(ws, now)[i] == Runs.Running(TasksOf(ws), now)[i] {
      assert ws[i] in ws;
    }
  }

  /** On a static machine the executor plans what the planner's run plans. */
  lemma PlansAgree(cfg: Config, s: State, env: Env, snapshot: Snapshot)
    requires Inv(cfg, s) && Unobserved(s.inFlight) && env.snapshot == Some(snapshot)
    ensures PlanOf(cfg, s, env) == Runs.PlanAt(MachineOf(cfg, snapshot), WorldOf(s, env.now))
  {
    SentAreStartable(cfg, s);
    CommittedIsSummed(cfg, snapshot, s.inFlight);
    RunningIsSame(s.inFlight, env.now);
    hide Inv, PlanFor;
    var free := Runs.Committed(MachineOf(cfg, snapshot).Idle(), TasksOf(s.inFlight)).gpu;
    SameTable(free, GpuFree(cfg, Some(snapshot), s.inFlight));
  }

  // ----- between two cycles -----

  lemma TasksSnoc(ws: seq<Work>, w: Work)
    ensures TasksOf(ws + [w]) == TasksOf(ws) + [TaskOf(w)]
  {
  }

  lemma {:induction false} LandedIsSub(ws: seq<Work>, ids: set<string>)
    ensures Runs.Sub(TasksOf(Without(ws, ids)), TasksOf(ws))
  {
    if ws != [] {
      var pre, w := ws[..|ws| - 1], ws[|ws| - 1];
      LandedIsSub(pre, ids);
      assert ws == pre + [w];
      WithoutSnoc(pre, w, ids);
      TasksSnoc(pre, w);
      TasksSnoc(Without(pre, ids), w);
      hide Without, TasksOf, TaskOf, Runs.Sub;
      Runs.SubSnoc(TasksOf(Without(pre, ids)), TasksOf(pre), TaskOf(w));
    }
  }

  lemma {:induction false} SentIsSub(sent: seq<Work>, admitted: seq<Placement>, now: real)
    requires SentFrom(sent, admitted) && StartedAt(sent, now)
    ensures Runs.Sub(TasksOf(sent), Runs.Shipped(admitted, now))
    decreases |admitted|
  {
    if admitted != [] {
      var pre := admitted[..|admitted| - 1];
      assert Runs.Shipped(admitted, now)[..|admitted| - 1] == Runs.Shipped(pre, now);
      if SentFrom(sent, pre) {
        SentIsSub(sent, pre, now);
      } else {
        SentIsSub(sent[..|sent| - 1], pre, now);
        assert TasksOf(sent)[..|sent| - 1] == TasksOf(sent[..|sent| - 1]);
      }
    }
  }

  /** What is in flight now was in flight at cycle `w`, or was planned there. */
  ghost predicate Follows(m: Runs.Machine, w: Runs.World, ws: seq<Work>) {
    Runs.Sub(TasksOf(ws), w.tasks + Runs.Shipped(Runs.PlanAt(m, w).admitted, w.now))
  }

  lemma LandingFollows(m: Runs.Machine, w: Runs.World, before: seq<Work>, after: seq<Work>)
    requires Follows(m, w, before) && OnlyLands(before, after)
    ensures Follows(m, w, after)
  {
    var ids: set<string> :| after == Without(before, ids);
    LandedIsSub(before, ids);
    Runs.SubTransitive(TasksOf(after), TasksOf(before), w.tasks + Runs.Shipped(Runs.PlanAt(m, w).admitted, w.now));
  }

  lemma TasksAppend(a: seq<Work>, b: seq<Work>)
    ensures TasksOf(a + b) == TasksOf(a) + TasksOf(b)
  {
  }

  /** After a dispatch cycle, what is in flight follows what the cycle saw. */
  lemma DispatchFollows(cfg: Config, s: State, env: Env, snapshot: Snapshot)
    requires Inv(cfg, s) && Unobserved(s.inFlight) && StaticStep(snapshot, ADispatch(env))
    ensures var w := WorldOf(Seen(cfg, s, env), env.now);
      w.tasks == TasksOf(s.inFlight) && Follows(MachineOf(cfg, snapshot), w, Dispatch(cfg, s, env).inFlight)
  {
    hide Inv, PlanOf, Dispatch, SentFrom, Seen, Runs.PlanAt;
    var seen := Seen(cfg, s, env);
    var m, w := MachineOf(cfg, snapshot), WorldOf(seen, env.now);
    SeenKeepsInv(cfg, s, env);
    SeenIsStamped(cfg, s, env);
    UnobservedStays(env.readings, s.inFlight);
    PlansAgree(cfg, seen, env, snapshot);
    var admitted := Runs.PlanAt(m, w).admitted;
    var sent := DispatchShips(cfg, s, env);
    if sent == [] {
      assert s.inFlight + sent == s.inFlight;
      Runs.NothingIsSub(Runs.Shipped(admitted, env.now));
    } else {
      SentIsSub(sent, admitted, env.now);
    }
    Runs.SubAfter(w.tasks, TasksOf(sent), Runs.Shipped(admitted, env.now));
    TasksAppend(s.inFlight, sent);
  }

  lemma LandingStaysUnobserved(before: seq<Work>, after: seq<Work>)
    requires Unobserved(before) && OnlyLands(before, after)
    ensures Unobserved(after)
  {
  }

  lemma DispatchStaysUnobserved(cfg: Config, s: State, env: Env, snapshot: Snapshot)
    requires Inv(cfg, s) && Unobserved(s.inFlight) && StaticStep(snapshot, ADispatch(env))
    ensures Unobserved(Dispatch(cfg, s, env).inFlight)
  {
    hide Inv, PlanOf, Dispatch, SentFrom, Seen;
    UnobservedStays(env.readings, s.inFlight);
    var sent := DispatchShips(cfg, s, env);
    if sent != [] {
      SentFromMembers(sent, PlanOf(cfg, Seen(cfg, s, env), env).admitted);
    }
  }

  ghost predicate ClockRuns(cycles: seq<Runs.World>) {
    forall i :: 0 <= i < |cycles| - 1 ==> cycles[i].now <= cycles[i + 1].now
  }

  ghost predicate Chained(m: Runs.Machine, cycles: seq<Runs.World>) {
    forall i :: 0 <= i < |cycles| - 1 ==> Runs.Next(m, cycles[i], cycles[i + 1])
  }

  /** The dispatch cycles of a run of the executor are a run of the planner. */
  lemma {:induction false} CyclesAreChained(cfg: Config, s: State, acts: seq<Action>, snapshot: Snapshot)
    requires Inv(cfg, s) && Unobserved(s.inFlight)
    requires forall i :: 0 <= i < |acts| ==> StaticStep(snapshot, acts[i])
    requires ClockRuns(Cycles(cfg, s, acts))
    ensures var m, cycles, later := MachineOf(cfg, snapshot), Cycles(cfg, s, acts), RunFrom(cfg, s, acts);
      && Chained(m, cycles) && Unobserved(later.inFlight)
      && (cycles != [] ==> Follows(m, cycles[|cycles| - 1], later.inFlight))
  {
    hide Inv, Apply, Chained, ClockRuns, Follows, StaticStep, Unobserved, OnlyLands, Seen, MachineOf;
    NothingChained(MachineOf(cfg, snapshot));
    if acts != [] {
      var pre, a := acts[..|acts| - 1], acts[|acts| - 1];
      var m, mid := MachineOf(cfg, snapshot), RunFrom(cfg, s, pre);
      var before := Cycles(cfg, s, pre);
      ClockPrefix(before, Cycles(cfg, s, acts));
      CyclesAreChained(cfg, s, pre, snapshot);
      RunKeepsInv(cfg, s, pre);
      if a.ADispatch? {
        ApplyDispatch(cfg, mid, a.env);
        assert StaticStep(snapshot, acts[|acts| - 1]) && a == ADispatch(a.env);
        DispatchFollows(cfg, mid, a.env, snapshot);
        DispatchStaysUnobserved(cfg, mid, a.env, snapshot);
        ChainedSnoc(m, before, WorldOf(Seen(cfg, mid, a.env), a.env.now), mid.inFlight);
      } else {
        assert before + [] == before;
        OnlyDispatchLaunches(cfg, mid, a);
        LandingStaysUnobserved(mid.inFlight, Apply(cfg, mid, a).inFlight);
        if before != [] {
          LandingFollows(m, before[|before| - 1], mid.inFlight, Apply(cfg, mid, a).inFlight);
        }
      }
    }
  }

  lemma ApplyDispatch(cfg: Config, s: State, env: Env)
    ensures Apply(cfg, s, ADispatch(env)) == Dispatch(cfg, s, env)
  {
  }

  lemma NothingChained(m: Runs.Machine)
    ensures Chained(m, [])
  {
  }

  lemma ClockPrefix(before: seq<Runs.World>, cycles: seq<Runs.World>)
    requires ClockRuns(cycles) && before <= cycles
    ensures ClockRuns(before)
  {
    assert forall i :: 0 <= i < |before| ==> before[i] == cycles[i];
  }

  lemma ChainedSnoc(m: Runs.Machine, cycles: seq<Runs.World>, w: Runs.World, ws: seq<Work>)
    requires Chained(m, cycles) && ClockRuns(cycles + [w]) && w.tasks == TasksOf(ws)
    requires cycles != [] ==> Follows(m, cycles[|cycles| - 1], ws)
    ensures Chained(m, cycles + [w])
  {
    var all := cycles + [w];
    forall i | 0 <= i < |all| - 1 ensures Runs.Next(m, all[i], all[i + 1]) {
      if i < |cycles| - 1 {
        assert Runs.Next(m, cycles[i], cycles[i + 1]);
      } else {
        assert all[i] == cycles[|cycles| - 1] && all[i + 1] == w;
      }
    }
  }

  /** Reservations never slip in the executor.  Take any run from a sane state, every thread
      interleaving freely, on a machine whose readings are static and show no growth.  Number
      its dispatch cycles, and let `head` be at the front, unchanged, in cycles `i` to `j`.  Once it
      waits in cycle `i` with a finite reservation then, until a cycle plans it, each later cycle
      `j` finds it waiting with a reservation no later in absolute time, and any later cycle at
      or after the reserved time plans it. */
  lemma ExecutorNeverSlips(cfg: Config, s: State, acts: seq<Action>, snapshot: Snapshot, head: PendingEntry, i: int,
                           j: int)
    requires Inv(cfg, s) && Unobserved(s.inFlight)
    requires forall k :: 0 <= k < |acts| ==> StaticStep(snapshot, acts[k])
    requires var cycles := Cycles(cfg, s, acts);
      && ClockRuns(cycles) && 0 <= i <= j < |cycles|
      && (forall k :: i <= k <= j ==> Runs.AtFront(cycles[k], head))
    requires var m, cycles := MachineOf(cfg, snapshot), Cycles(cfg, s, acts);
      && Runs.Waiting(m, cycles[i], head) && Runs.ReservationAt(m, cycles[i], head).At?
      && (forall k :: i <= k < j ==> !Runs.Planned(m, cycles[k], head))
    ensures var m, cycles := MachineOf(cfg, snapshot), Cycles(cfg, s, acts);
      || Runs.Planned(m, cycles[j], head)
      || (&& Runs.Waiting(m, cycles[j], head) && Runs.ReservationAt(m, cycles[j], head).At?
          && cycles[j].now + Runs.ReservationAt(m, cycles[j], head).seconds
             <= cycles[i].now + Runs.ReservationAt(m, cycles[i], head).seconds)
    ensures var m, cycles := MachineOf(cfg, snapshot), Cycles(cfg, s, acts);
      i < j && cycles[i].now + Runs.ReservationAt(m, cycles[i], head).seconds <= cycles[j].now ==>
        Runs.Planned(m, cycles[j], head)
  {
    CyclesAreChained(cfg, s, acts, snapshot);
    hide Inv, Cycles, Runs.AtFront, Runs.Next, Runs.Waiting, Runs.Planned, Runs.ReservationAt, RunFrom, MachineOf;
    Runs.ReservationNeverSlips(MachineOf(cfg, snapshot), Cycles(cfg, s, acts), head, i, j);
  }
}
