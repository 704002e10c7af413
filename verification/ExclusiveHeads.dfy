/** An exclusive task at the front of the queue: the machine drains for it, and it starts alone. */
module ExclusiveHeads {
  import opened Quantities
  import opened Admission
  import opened Planning
  import opened Reservations
  import opened Runs
  import opened Turns
  import opened Fairness

  /** The machine is idle and has room for the task. */
  ghost predicate StartsAlone(m: Machine, w: World, head: PendingEntry) {
    w.tasks == [] && Fits(CapacityOf(m, w), head, m.Idle())
  }

  lemma NobodyHolds(identity: Option<string>)
    ensures !Holding([], identity)
  {
  }

  /** An exclusive task may start only when nothing is in flight. */
  lemma MayStartAlone(m: Machine, w: World, head: PendingEntry)
    requires head.exclusive
    ensures MayStart(m, w.tasks, head) <==> StartsAlone(m, w, head)
  {
    CommittedSlots(m.Idle(), w.tasks);
    NobodyHolds(head.identity);
  }

  /** With an exclusive task at the front a plan is that task alone, if nothing is in flight and it fits,
      and otherwise nothing at all. */
  lemma ExclusiveHeadExactly(m: Machine, w: World, head: PendingEntry)
    requires w.queue != [] && w.queue[0] == head && head.exclusive
    ensures StartsAlone(m, w, head) ==> |PlanAt(m, w).admitted| == 1 && PlanAt(m, w).admitted[0].task == head
    ensures !StartsAlone(m, w, head) ==> PlanAt(m, w).admitted == []
  {
    var running, cap, st := Running(w.tasks, w.now), CapacityOf(m, w), StartAt(m, w);
    FifoStartsExactly(m, w, head);
    MayStartAlone(m, w, head);
    PlanIsFifoThenPassers(m, w);
    if !AnyExclusive(running) {
      CommittedSlots(m.Idle(), w.tasks);
      FitsIsComputed(cap, head, st.pools, st.rr);
      assert !MayBePassed(m, w);
    }
    assert FifoAt(m, w) + [] == FifoAt(m, w);
  }

  /** Cycles of a run with the exclusive task at the front, unplanned up to the last. */
  ghost predicate DrainingRun(m: Machine, trace: seq<World>, head: PendingEntry) {
    && trace != [] && head.exclusive
    && (forall k :: 0 <= k < |trace| ==> trace[k].queue != [] && trace[k].queue[0] == head)
    && (forall k :: 0 <= k < |trace| - 1 ==> Next(m, trace[k], trace[k + 1]) && !Planned(m, trace[k], head))
  }

  lemma DrainStep(m: Machine, w: World, w': World, head: PendingEntry)
    requires w.queue != [] && w.queue[0] == head && head.exclusive && Next(m, w, w') && !Planned(m, w, head)
    ensures Sub(w'.tasks, w.tasks) && PlanAt(m, w).admitted == [] && !StartsAlone(m, w, head)
  {
    ExclusiveHeadExactly(m, w, head);
    hide PlanAt, StartsAlone, Sub;
    assert w.tasks + Shipped([], w.now) == w.tasks;
  }

  lemma {:induction false} OnlyDrains(m: Machine, trace: seq<World>, head: PendingEntry, j: nat)
    requires DrainingRun(m, trace, head) && j < |trace|
    ensures Sub(trace[j].tasks, trace[0].tasks)
  {
    hide PlanAt, StartsAlone, Sub, Next, Planned;
    if j == 0 {
      SubReflexive(trace[0].tasks);
    } else {
      OnlyDrains(m, trace, head, j - 1);
      assert Next(m, trace[j - 1], trace[j - 1 + 1]);
      DrainStep(m, trace[j - 1], trace[j], head);
      SubTransitive(trace[j].tasks, trace[j - 1].tasks, trace[0].tasks);
    }
  }

  /** While an exclusive task waits at the front nothing is planned and what is in flight only drains,
      and it is planned, alone, in the first cycle that finds the machine idle with room for it. */
  lemma MachineDrains(m: Machine, trace: seq<World>, head: PendingEntry)
    requires DrainingRun(m, trace, head)
    ensures var last := trace[|trace| - 1];
      && Sub(last.tasks, trace[0].tasks)
      && (forall k :: 0 <= k < |trace| - 1 ==> PlanAt(m, trace[k]).admitted == [] && !StartsAlone(m, trace[k], head))
      && (if StartsAlone(m, last, head) then |PlanAt(m, last).admitted| == 1 && Planned(m, last, head)
          else PlanAt(m, last).admitted == [])
  {
    OnlyDrains(m, trace, head, |trace| - 1);
    ExclusiveHeadExactly(m, trace[|trace| - 1], head);
    hide PlanAt, StartsAlone, Sub, Next;
    forall k | 0 <= k < |trace| - 1 ensures PlanAt(m, trace[k]).admitted == [] && !StartsAlone(m, trace[k], head) {
      DrainStep(m, trace[k], trace[k + 1], head);
    }
  }
}
