/** Which tasks are in flight here before strict FIFO starts them, and what follows: nothing is lost
    without overtaking, and on one GPU only to crowding. */
module EarlyStarts {
  import opened Quantities
  import opened Admission
  import opened Planning
  import opened Plans
  import opened Runs
  import opened Turns
  import opened Fairness
  import opened Twins
  import opened SideBySide
  import opened Races

  // ----- who is in flight early -----

  /** In this cycle the queued task `e` is started here: reached in turn, or passing in its turn, and
      finding a worker. */
  ghost predicate StartsNow(m: Machine, ours: World, tick: Tick, e: PendingEntry) {
    && e.id !in tick.refused
    && exists q :: 0 <= q < |ours.queue| && ours.queue[q] == e && (q < |FifoAt(m, ours)| || PassesInTurn(m, ours, q))
  }

  lemma SentExactly(m: Machine, w: World, tick: Tick, e: PendingEntry)
    requires DistinctIds(w.queue)
    ensures (exists a :: a in PlanAt(m, w).admitted && a.task.id !in tick.refused && a.task == e) <==>
      StartsNow(m, w, tick, e)
  {
    var admitted := PlanAt(m, w).admitted;
    StartsAreFromQueue(m, w);
    hide PlanAt, FifoAt, PassesInTurn;
    if a :| a in admitted && a.task.id !in tick.refused && a.task == e {
      var q :| 0 <= q < |w.queue| && w.queue[q] == e;
      SameQueued(w.queue, admitted, a, e);
      StartsExactly(m, w, q);
    }
    if StartsNow(m, w, tick, e) {
      var q :| 0 <= q < |w.queue| && w.queue[q] == e && (q < |FifoAt(m, w)| || PassesInTurn(m, w, q));
      StartsExactly(m, w, q);
      var i :| 0 <= i < |admitted| && admitted[i].task == e;
      assert admitted[i] in admitted;
    }
  }

  /** A task with that start is in flight. */
  ghost predicate InFlightSince(tasks: seq<Task>, e: PendingEntry, started: real) {
    exists t :: t in tasks && t.entry == e && t.started == started
  }

  predicate InTimeFrom(now: real, started: real, tick: Tick, took: string -> real, e: PendingEntry) {
    started == now && tick.now - started < took(e.id)
  }

  lemma InFlightStep(m: Machine, took: string -> real, v: World, tick: Tick, e: PendingEntry, started: real)
    requires DistinctIds(v.queue)
    ensures InFlightSince(Advance(v, PlanAt(m, v).admitted, PlanAt(m, v).rr, tick, took).tasks, e, started) <==>
      && tick.now - started < took(e.id)
      && (InFlightSince(v.tasks, e, started) || (started == v.now && StartsNow(m, v, tick, e)))
  {
    SentExactly(m, v, tick, e);
    var mine, rr := PlanAt(m, v).admitted, PlanAt(m, v).rr;
    hide PlanAt, StartsNow;
    var after := Advance(v, mine, rr, tick, took).tasks;
    if t :| t in after && t.entry == e && t.started == started {
      InFlightNext(v, mine, rr, tick, took, t);
    }
    if t :| t in v.tasks && t.entry == e && t.started == started && tick.now - started < took(e.id) {
      InFlightNext(v, mine, rr, tick, took, t);
    }
    if a :| a in mine && a.task.id !in tick.refused && a.task == e && InTimeFrom(v.now, started, tick, took, e) {
      InFlightNext(v, mine, rr, tick, took, Task(a.task, a.gpu, v.now));
    }
  }

  /** Some cycle at that moment started the task. */
  ghost predicate StartedAt(m: Machine, took: string -> real, w: World, ticks: seq<Tick>, e: PendingEntry,
                            moment: real) {
    ticks != [] &&
    var pre := ticks[..|ticks| - 1];
    || StartedAt(m, took, w, pre, e, moment)
    || (StartsNow(m, Ours(m, took, w, pre), ticks[|ticks| - 1], e) && moment == NowAt(w, pre))
  }

  lemma {:induction false} InFlightExactly(m: Machine, took: string -> real, w: World, ticks: seq<Tick>,
                                           e: PendingEntry, started: real)
    requires Sane(w, ticks) && forall t :: t in w.tasks ==> t.entry != e
    ensures InFlightSince(Ours(m, took, w, ticks).tasks, e, started) <==>
      StartedAt(m, took, w, ticks, e, started) && NowAt(w, ticks) - started < took(e.id)
  {
    if ticks != [] {
      var n := |ticks| - 1;
      var pre := ticks[..n];
      var v := Ours(m, took, w, pre);
      SanePrefix(w, ticks);
      BothOrderly(m, took, w, pre);
      OrderlyQueue(Everyone(w, pre), v);
      NowAfter(m, took, w, pre);
      hide Sane, Orderly, Advance, StartsNow, PlanAt, InFlightSince;
      InFlightExactly(m, took, w, pre, e, started);
      InFlightStep(m, took, v, ticks[n], e, started);
    }
  }

  /** Nobody queued was in flight at the start. */
  ghost predicate New(w: World, queue: seq<PendingEntry>) {
    forall e, t :: e in queue && t in w.tasks ==> t.entry.id != e.id
  }

  lemma {:induction false} QueuedAreNew(m: Machine, took: string -> real, w: World, ticks: seq<Tick>)
    requires Sane(w, ticks)
    ensures New(w, Ours(m, took, w, ticks).queue) && New(w, Strict(m, took, w, ticks).queue)
  {
    if ticks == [] {
      FirstIsOrderly(w);
    } else {
      var n := |ticks| - 1;
      var ours, strict := Ours(m, took, w, ticks[..n]), Strict(m, took, w, ticks[..n]);
      SanePrefix(w, ticks);
      QueuedAreNew(m, took, w, ticks[..n]);
      DistinctHalves(Everyone(w, ticks[..n]), ticks[n].arrivals);
      InitiallyKnown(w, ticks[..n]);
      hide Sane, Everyone, PlanAt, FifoAt, FifoIndexAt;
      StaysNew(w, ours, PlanAt(m, ours).admitted, PlanAt(m, ours).rr, ticks[n], took);
      StaysNew(w, strict, FifoAt(m, strict), FifoIndexAt(m, strict), ticks[n], took);
    }
  }

  lemma StaysNew(w: World, v: World, admitted: seq<Placement>, rr: int, tick: Tick, took: string -> real)
    requires New(w, v.queue) && New(w, tick.arrivals)
    ensures New(w, Advance(v, admitted, rr, tick, took).queue)
  {
    forall e | e in Advance(v, admitted, rr, tick, took).queue ensures e in v.queue || e in tick.arrivals {
      QueuedNext(v, admitted, rr, tick, took, e);
    }
  }

  lemma {:induction false} InitiallyKnown(w: World, ticks: seq<Tick>)
    ensures forall t :: t in w.tasks ==> t.entry in Everyone(w, ticks)
  {
    if ticks == [] {
      forall t | t in w.tasks ensures t.entry in EntriesOf(w.tasks) {
        var i :| 0 <= i < |w.tasks| && w.tasks[i] == t;
        assert EntriesOf(w.tasks)[i] == t.entry;
      }
    } else {
      InitiallyKnown(w, ticks[..|ticks| - 1]);
    }
  }

  lemma {:induction false} StartedInCycle(m: Machine, took: string -> real, w: World, ticks: seq<Tick>, e: PendingEntry,
                                          moment: real) returns (n: int)
    requires StartedAt(m, took, w, ticks, e, moment)
    ensures 0 <= n < |ticks| && StartsNow(m, Ours(m, took, w, ticks[..n]), ticks[n], e)
      && moment == NowAt(w, ticks[..n])
  {
    hide StartsNow, Ours, NowAt;
    var pre := ticks[..|ticks| - 1];
    n := |pre|;
    if StartedAt(m, took, w, pre, e, moment) {
      n := StartedInCycle(m, took, w, pre, e, moment);
      assert pre[..n] == ticks[..n];
    }
  }

  lemma {:induction false} CycleStarted(m: Machine, took: string -> real, w: World, ticks: seq<Tick>,
                                        e: PendingEntry, n: int)
    requires 0 <= n < |ticks| && StartsNow(m, Ours(m, took, w, ticks[..n]), ticks[n], e)
    ensures StartedAt(m, took, w, ticks, e, NowAt(w, ticks[..n]))
  {
    hide StartsNow, Ours, NowAt;
    var pre := ticks[..|ticks| - 1];
    if n < |pre| {
      assert pre[..n] == ticks[..n];
      CycleStarted(m, took, w, pre, e, n);
    }
  }

  /** In cycle `n` the task is started here, and it has not yet run for its time. */
  ghost predicate StartedIn(m: Machine, took: string -> real, w: World, ticks: seq<Tick>, e: PendingEntry, n: int) {
    && 0 <= n < |ticks| && StartsNow(m, Ours(m, took, w, ticks[..n]), ticks[n], e)
    && NowAt(w, ticks) - NowAt(w, ticks[..n]) < took(e.id)
  }

  /** Which tasks that wait under strict FIFO are in flight here: exactly those that in some earlier cycle
      were reached in turn or passed the blocked head in their turn, found a worker, and have not yet run
      for their time. */
  lemma EarlyExactly(m: Machine, took: string -> real, w: World, ticks: seq<Tick>, e: PendingEntry)
    requires Sane(w, ticks) && e in Strict(m, took, w, ticks).queue
    ensures (exists t :: t in Ours(m, took, w, ticks).tasks && t.entry == e) <==>
      exists n :: StartedIn(m, took, w, ticks, e, n)
  {
    QueuedAreNew(m, took, w, ticks);
    hide Sane, StartsNow, Ours, NowAt, StartedAt;
    if t :| t in Ours(m, took, w, ticks).tasks && t.entry == e {
      InFlightExactly(m, took, w, ticks, e, t.started);
      var n := StartedInCycle(m, took, w, ticks, e, t.started);
      assert StartedIn(m, took, w, ticks, e, n);
    }
    if n :| StartedIn(m, took, w, ticks, e, n) {
      CycleStarted(m, took, w, ticks, e, n);
      InFlightExactly(m, took, w, ticks, e, NowAt(w, ticks[..n]));
    }
  }

  // ----- no loss without overtaking -----

  lemma NobodyPassesExactly(m: Machine, w: World)
    requires DistinctIds(w.queue)
    ensures Passers(m, w) == [] <==> forall q :: !PassesInTurn(m, w, q)
  {
    if a :| a in Passers(m, w) {
      PlanIsFifoThenPassers(m, w);
      StartsAreFromQueue(m, w);
      hide PlanAt, FifoAt, PassesInTurn, Passers;
      assert a in PlanAt(m, w).admitted;
      var q :| 0 <= q < |w.queue| && w.queue[q] == a.task;
      var i :| 0 <= i < |Passers(m, w)| && Passers(m, w)[i] == a;
      assert Among(a.task, Passers(m, w));
      MustBePassed(m, w);
      PasserInQueue(m, w, q);
    }
    if q :| PassesInTurn(m, w, q) {
      PasserInQueue(m, w, q);
    }
    assert Passers(m, w) != [] ==> Passers(m, w)[0] in Passers(m, w);
  }

  lemma MustBePassed(m: Machine, w: World)
    requires Passers(m, w) != []
    ensures MayBePassed(m, w)
  {
  }

  /** Nobody has passed a blocked head in any cycle. */
  ghost predicate NobodyPassed(m: Machine, took: string -> real, w: World, ticks: seq<Tick>) {
    forall i, q :: 0 <= i < |ticks| ==> !PassesInTurn(m, Ours(m, took, w, ticks[..i]), q)
  }

  lemma NobodyPassedBefore(m: Machine, took: string -> real, w: World, ticks: seq<Tick>)
    requires NobodyPassed(m, took, w, ticks) && ticks != []
    ensures var pre := ticks[..|ticks| - 1];
      NobodyPassed(m, took, w, pre) && forall q :: !PassesInTurn(m, Ours(m, took, w, pre), q)
  {
    hide PassesInTurn, Ours;
    var pre := ticks[..|ticks| - 1];
    assert forall i :: 0 <= i < |pre| ==> pre[..i] == ticks[..i];
  }

  lemma SameStarts(m: Machine, w: World)
    requires DistinctIds(w.queue) && forall q :: !PassesInTurn(m, w, q)
    ensures PlanAt(m, w).admitted == FifoAt(m, w) && PlanAt(m, w).rr == FifoIndexAt(m, w)
  {
    NobodyPassesExactly(m, w);
    PlanIsFifoThenPassers(m, w);
    hide *;
    assert FifoAt(m, w) + [] == FifoAt(m, w);
  }

  /** Until somebody passes, the two runs are one. */
  lemma {:induction false} SameUntilPassed(m: Machine, took: string -> real, w: World, ticks: seq<Tick>)
    requires Sane(w, ticks) && NobodyPassed(m, took, w, ticks)
    ensures Ours(m, took, w, ticks) == Strict(m, took, w, ticks)
  {
    if ticks != [] {
      var pre := ticks[..|ticks| - 1];
      SanePrefix(w, ticks);
      NobodyPassedBefore(m, took, w, ticks);
      BothOrderly(m, took, w, pre);
      OrderlyQueue(Everyone(w, pre), Ours(m, took, w, pre));
      hide Sane, NobodyPassed, Orderly, Advance, PlanAt, FifoAt, FifoIndexAt, PassesInTurn;
      SameUntilPassed(m, took, w, pre);
      SameStarts(m, Ours(m, took, w, pre));
    }
  }

  /** What is lost is lost to overtaking: some task passed a blocked head in an earlier cycle. */
  lemma LossNeedsOvertaking(m: Machine, took: string -> real, w: World, ticks: seq<Tick>, x: PendingEntry)
    requires Sane(w, ticks) && Lost(m, Ours(m, took, w, ticks), Strict(m, took, w, ticks), x)
    ensures exists i, q :: 0 <= i < |ticks| && PassesInTurn(m, Ours(m, took, w, ticks[..i]), q)
  {
    hide PassesInTurn, Ours, Strict, PlanAt, FifoAt;
    if NobodyPassed(m, took, w, ticks) {
      var v := Ours(m, took, w, ticks);
      SameUntilPassed(m, took, w, ticks);
      PlanIsFifoThenPassers(m, v);
      AmongJoined(x, FifoAt(m, v), Passers(m, v));
    }
  }

  // ----- a rotation of one GPU -----

  /** The rotation has no two different GPUs. */
  ghost predicate OneGpu(m: Machine) {
    forall i, j :: 0 <= i < |m.gpuOrder| && 0 <= j < |m.gpuOrder| ==> m.gpuOrder[i] == m.gpuOrder[j]
  }

  /** The task was in flight from the start, or is new and stands on a GPU of the rotation exactly if it
      needs VRAM. */
  ghost predicate WellHoused(m: Machine, w: World, t: Task) {
    || t in w.tasks
    || ((forall u :: u in w.tasks ==> u.entry.id != t.entry.id)
        && if t.entry.vram > 0.0 then t.gpu.Some? && t.gpu.value in m.gpuOrder else t.gpu == None)
  }

  ghost predicate AllHoused(m: Machine, w: World, tasks: seq<Task>) {
    forall t :: t in tasks ==> WellHoused(m, w, t)
  }

  lemma PlannedAreHoused(m: Machine, w: World, v: World, admitted: seq<Placement>)
    requires New(w, v.queue) && DistinctIds(v.queue) && admitted <= PlanAt(m, v).admitted
    ensures AllHoused(m, w, Shipped(admitted, v.now))
  {
    var mine := PlanAt(m, v).admitted;
    EveryDecisionJustified(v.queue, Running(v.tasks, v.now), CapacityOf(m, v));
    StartsAreFromQueue(m, v);
    forall t | t in Shipped(admitted, v.now) ensures WellHoused(m, w, t) {
      var i :| 0 <= i < |admitted| && Shipped(admitted, v.now)[i] == t;
      assert mine[i] == admitted[i] && mine[i] in mine;
      assert JustifiedAt(CapacityOf(m, v), StartAt(m, v).pools, StartAt(m, v).held, mine, i);
    }
  }

  lemma AdvanceHoused(m: Machine, w: World, v: World, admitted: seq<Placement>, rr: int, tick: Tick,
                      took: string -> real)
    requires AllHoused(m, w, v.tasks) && AllHoused(m, w, Shipped(admitted, v.now))
    ensures AllHoused(m, w, Advance(v, admitted, rr, tick, took).tasks)
  {
    forall t | t in Advance(v, admitted, rr, tick, took).tasks ensures WellHoused(m, w, t) {
      InFlightNext(v, admitted, rr, tick, took, t);
      if t !in v.tasks {
        var a :| a in admitted && t == Task(a.task, a.gpu, v.now);
        var i :| 0 <= i < |admitted| && admitted[i] == a;
        assert Shipped(admitted, v.now)[i] == t;
      }
    }
  }

  lemma StartsAreHoused(m: Machine, took: string -> real, w: World, ticks: seq<Tick>)
    requires Sane(w, ticks)
    ensures var ours, strict := Ours(m, took, w, ticks), Strict(m, took, w, ticks);
      && AllHoused(m, w, Shipped(PlanAt(m, ours).admitted, ours.now))
      && AllHoused(m, w, Shipped(FifoAt(m, ours), ours.now))
      && AllHoused(m, w, Shipped(FifoAt(m, strict), strict.now))
  {
    var ours, strict := Ours(m, took, w, ticks), Strict(m, took, w, ticks);
    BothOrderly(m, took, w, ticks);
    OrderlyQueue(Everyone(w, ticks), ours);
    OrderlyQueue(Everyone(w, ticks), strict);
    QueuedAreNew(m, took, w, ticks);
    PlanBeginsWithFifo(m, ours);
    PlanBeginsWithFifo(m, strict);
    hide Sane, Orderly, PlanAt, FifoAt, AllHoused, Passers;
    PlannedAreHoused(m, w, ours, PlanAt(m, ours).admitted);
    PlannedAreHoused(m, w, ours, FifoAt(m, ours));
    PlannedAreHoused(m, w, strict, FifoAt(m, strict));
  }

  lemma {:induction false} BothHoused(m: Machine, took: string -> real, w: World, ticks: seq<Tick>)
    requires Sane(w, ticks)
    ensures AllHoused(m, w, Ours(m, took, w, ticks).tasks) && AllHoused(m, w, Strict(m, took, w, ticks).tasks)
  {
    if ticks != [] {
      var n := |ticks| - 1;
      var ours, strict := Ours(m, took, w, ticks[..n]), Strict(m, took, w, ticks[..n]);
      SanePrefix(w, ticks);
      hide Sane, Advance, AllHoused, PlanAt, FifoAt, FifoIndexAt;
      BothHoused(m, took, w, ticks[..n]);
      StartsAreHoused(m, took, w, ticks[..n]);
      AdvanceHoused(m, w, ours, PlanAt(m, ours).admitted, PlanAt(m, ours).rr, ticks[n], took);
      AdvanceHoused(m, w, strict, FifoAt(m, strict), FifoIndexAt(m, strict), ticks[n], took);
    }
  }

  lemma OneHouse(m: Machine, w: World, x: Task, y: Task)
    requires OneGpu(m) && WellHoused(m, w, x) && WellHoused(m, w, y) && x.entry == y.entry && DistinctTasks(w.tasks)
    ensures x.gpu == y.gpu
  {
    if x in w.tasks && y in w.tasks {
      var i :| 0 <= i < |w.tasks| && w.tasks[i] == x;
      var j :| 0 <= j < |w.tasks| && w.tasks[j] == y;
      assert i == j;
    }
  }

  /** With a rotation of at most one GPU every task stands where it does under strict FIFO. */
  lemma OneGpuNeverScattered(m: Machine, took: string -> real, w: World, ticks: seq<Tick>)
    requires Sane(w, ticks) && OneGpu(m)
    ensures !Scattered(WithStarts(m, Ours(m, took, w, ticks)), WithStarts(m, Strict(m, took, w, ticks)))
  {
    var ours, strict := Ours(m, took, w, ticks), Strict(m, took, w, ticks);
    BothHoused(m, took, w, ticks);
    StartsAreHoused(m, took, w, ticks);
    SaneUpTo(w, ticks, 0);
    FirstIsOrderly(w);
    hide Sane, Ours, Strict, PlanAt, FifoAt, OneGpu, WellHoused;
    forall x, y | x in WithStarts(m, ours) && y in WithStarts(m, strict) && x.entry == y.entry ensures x.gpu == y.gpu {
      OneHouse(m, w, x, y);
    }
  }

  /** So there, as long as nothing has been lost, a task is lost if and only if strict FIFO starts it, it
      does not pass in its turn, and some task up to it is crowded out by what strict FIFO has yet to start. */
  lemma FirstLossWithOneGpu(m: Machine, took: string -> real, w: World, ticks: seq<Tick>, x: PendingEntry)
    requires Sane(w, ticks) && NothingLost(m, took, w, ticks) && OneGpu(m)
    ensures var ours, strict := Ours(m, took, w, ticks), Strict(m, took, w, ticks);
      Lost(m, ours, strict, x) <==>
        (Among(x, FifoAt(m, strict)) && exists q, j :: CrowdedBack(m, ours, strict, q, j) && ours.queue[q] == x)
  {
    FirstLossExactly(m, took, w, ticks, x);
    OneGpuNeverScattered(m, took, w, ticks);
    var ours, strict := Ours(m, took, w, ticks), Strict(m, took, w, ticks);
    hide Sane, NothingLost, OneGpu, Lost, Among, FifoAt, Scattered, WithStarts, CrowdedOutAt, MisplacedAt,
      PassesInTurn, Ours, Strict;
    assert forall q, j :: HeldBackAt(m, ours, strict, q, j) <==> CrowdedBack(m, ours, strict, q, j);
  }

  ghost predicate CrowdedBack(m: Machine, ours: World, strict: World, q: int, j: int)
    ensures CrowdedBack(m, ours, strict, q, j) ==> 0 <= q < |ours.queue|
  {
    0 <= j <= q < |ours.queue| && !PassesInTurn(m, ours, q) && CrowdedOutAt(m, ours, strict, j)
  }
}
