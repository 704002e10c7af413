/** When this scheduler starts a task no later than strict FIFO does: once the task has reached the
    front of the queue, if nothing in flight then has gone by the time strict FIFO starts it. */
module NeverLater {
  import opened Admission
  import opened Planning
  import opened Runs
  import opened Turns
  import opened Fairness
  import opened Twins
  import opened SideBySide
  import opened Races
  import opened EarlyStarts

  lemma StartMeansMayStart(m: Machine, w: World, x: PendingEntry)
    requires DistinctIds(w.queue) && WorldSized(w) && Among(x, FifoAt(m, w))
    ensures MayStart(m, w.tasks, x)
  {
    FifoAtGoesInTurn(m, w);
    FifoAtIsPrefix(m, w);
    StartsSized(m, w);
    var starts := FifoAt(m, w);
    hide FifoAt, MayStart;
    var i :| 0 <= i < |starts| && starts[i].task == x;
    var before := Shipped(starts[..i], w.now);
    NothingIsSub(before);
    SubAfter(w.tasks, [], before);
    assert w.tasks + [] == w.tasks;
    FewerMayStart(m, w.tasks, w.tasks + before, x);
  }

  /** If everything in flight at `w` that should by its estimate still hold is in flight in a later
      world, strict FIFO starts a waiting head there, anywhere in its queue, no sooner than its
      reservation at `w`. */
  lemma StartsNoSooner(m: Machine, w: World, later: World, head: PendingEntry)
    requires Waiting(m, w, head) && NoneEarly(w, later) && WorldSized(later) && DistinctIds(later.queue)
    requires Among(head, FifoAt(m, later))
    ensures ReservationAt(m, w, head).At? && w.now + ReservationAt(m, w, head).seconds <= later.now
  {
    StartMeansMayStart(m, later, head);
    FreeWhenDue(m, w, later, head);
  }

  /** The front task stays at the front until it is planned. */
  lemma FrontStays(m: Machine, took: string -> real, v: World, tick: Tick, x: PendingEntry)
    requires DistinctIds(v.queue) && v.queue != [] && v.queue[0] == x && !Planned(m, v, x)
    ensures var v' := Advance(v, PlanAt(m, v).admitted, PlanAt(m, v).rr, tick, took); v'.queue != [] && v'.queue[0] == x
  {
    StartsExactly(m, v, 0);
    PlanIsFifoThenPassers(m, v);
    FifoAtIsPrefix(m, v);
    StartsAreFromQueue(m, v);
    var mine := PlanAt(m, v).admitted;
    hide FifoAt, PlanAt, Passers, PassesInTurn;
    forall a | a in mine ensures a.task.id != x.id {
      if a.task.id == x.id { SameQueued(v.queue, mine, a, x); }
    }
    assert x in v.queue;
  }

  /** A cycle of this scheduler is a step of a run. */
  lemma AdvanceIsNext(m: Machine, took: string -> real, v: World, tick: Tick)
    requires v.now <= tick.now
    ensures Next(m, v, Advance(v, PlanAt(m, v).admitted, PlanAt(m, v).rr, tick, took))
  {
    var mine := PlanAt(m, v).admitted;
    hide PlanAt;
    SentIsSub(mine, tick.refused, v.now);
    var sent := Shipped(Sent(mine, tick.refused), v.now);
    SubAfter(v.tasks, sent, Shipped(mine, v.now));
    RunningIsSub(v.tasks + sent, tick.now, took);
    SubTransitive(StillRunning(v.tasks + sent, tick.now, took), v.tasks + sent, v.tasks + Shipped(mine, v.now));
  }

  lemma {:induction false} SentIsSub(admitted: seq<Placement>, refused: set<string>, now: real)
    ensures Sub(Shipped(Sent(admitted, refused), now), Shipped(admitted, now))
  {
    if admitted != [] {
      var pre, a := admitted[..|admitted| - 1], admitted[|admitted| - 1];
      SentIsSub(pre, refused, now);
      var t := Task(a.task, a.gpu, now);
      SubSnoc(Shipped(Sent(pre, refused), now), Shipped(pre, now), t);
      assert Shipped(admitted, now) == Shipped(pre, now) + [t];
      assert a.task.id !in refused ==> Shipped(Sent(admitted, refused), now) == Shipped(Sent(pre, refused), now) + [t];
      assert a.task.id in refused ==> Sent(admitted, refused) == Sent(pre, refused);
    }
  }

  lemma {:induction false} RunningIsSub(tasks: seq<Task>, now: real, took: string -> real)
    ensures Sub(StillRunning(tasks, now, took), tasks)
  {
    if tasks != [] {
      var pre, t := tasks[..|tasks| - 1], tasks[|tasks| - 1];
      RunningIsSub(pre, now, took);
      SubSnoc(StillRunning(pre, now, took), pre, t);
      assert pre + [t] == tasks;
      assert StillRunning(pre, now, took) + [] == StillRunning(pre, now, took);
    }
  }

  // ----- from the front on -----

  /** The world after the first `i` cycles. */
  ghost function OursAfter(m: Machine, took: string -> real, w: World, ticks: seq<Tick>, i: nat): World
    requires i <= |ticks|
  {
    Ours(m, took, w, ticks[..i])
  }

  /** In cycles `k` to the last, no task outlives its estimate and the canary does not hold `x`. */
  ghost predicate Undisturbed(m: Machine, took: string -> real, w: World, ticks: seq<Tick>, k: nat, x: PendingEntry) {
    forall i :: k <= i <= |ticks| ==>
      var v := OursAfter(m, took, w, ticks, i); Punctual(v) && !CanaryBlocked(HeldBy(Running(v.tasks, v.now)), x)
  }

  lemma OursStep(m: Machine, took: string -> real, w: World, ticks: seq<Tick>, i: nat)
    requires Sane(w, ticks) && i < |ticks|
    ensures var v, v' := OursAfter(m, took, w, ticks, i), OursAfter(m, took, w, ticks, i + 1);
      && v' == Advance(v, PlanAt(m, v).admitted, PlanAt(m, v).rr, ticks[i], took)
      && Next(m, v, v') && DistinctIds(v.queue) && WorldSized(v)
  {
    var v := OursAfter(m, took, w, ticks, i);
    SaneUpTo(w, ticks, i + 1);
    SanePrefix(w, ticks[..i + 1]);
    assert ticks[..i + 1][..i] == ticks[..i];
    BothOrderly(m, took, w, ticks[..i]);
    OrderlyQueue(Everyone(w, ticks[..i]), v);
    BothSized(m, took, w, ticks[..i]);
    NowAfter(m, took, w, ticks[..i]);
    hide Sane, Orderly, Advance, Next, WorldSized, PlanAt;
    AdvanceIsNext(m, took, v, ticks[i]);
  }

  /** `x` is at the front after `k` cycles, and no later cycle before `n` plans it. */
  ghost predicate UnplannedFrom(m: Machine, took: string -> real, w: World, ticks: seq<Tick>, k: nat, n: nat,
                                x: PendingEntry)
    requires k <= n <= |ticks|
  {
    && OursAfter(m, took, w, ticks, k).queue != [] && OursAfter(m, took, w, ticks, k).queue[0] == x
    && (forall i :: k <= i < n ==> !Planned(m, OursAfter(m, took, w, ticks, i), x))
  }

  lemma FrontOneMore(m: Machine, took: string -> real, w: World, ticks: seq<Tick>, n: nat, x: PendingEntry)
    requires Sane(w, ticks) && n < |ticks| && !Planned(m, OursAfter(m, took, w, ticks, n), x)
    requires OursAfter(m, took, w, ticks, n).queue != [] && OursAfter(m, took, w, ticks, n).queue[0] == x
    ensures OursAfter(m, took, w, ticks, n + 1).queue != [] && OursAfter(m, took, w, ticks, n + 1).queue[0] == x
  {
    OursStep(m, took, w, ticks, n);
    hide Sane, Planned, Advance, Next, WorldSized, PlanAt, OursAfter, DistinctIds;
    FrontStays(m, took, OursAfter(m, took, w, ticks, n), ticks[n], x);
  }

  lemma {:induction false} FrontUntilPlanned(m: Machine, took: string -> real, w: World, ticks: seq<Tick>, k: nat,
                                             n: nat, x: PendingEntry)
    requires Sane(w, ticks) && k <= n <= |ticks| && UnplannedFrom(m, took, w, ticks, k, n, x)
    ensures OursAfter(m, took, w, ticks, n).queue != [] && OursAfter(m, took, w, ticks, n).queue[0] == x
    decreases n
  {
    if k < n {
      hide Sane, Planned, OursAfter;
      FrontUntilPlanned(m, took, w, ticks, k, n - 1, x);
      FrontOneMore(m, took, w, ticks, n - 1, x);
    }
  }

  lemma StaysAtFront(m: Machine, took: string -> real, w: World, ticks: seq<Tick>, k: nat, n: nat, x: PendingEntry)
    requires Sane(w, ticks) && k <= n <= |ticks| && UnplannedFrom(m, took, w, ticks, k, n, x)
    requires !x.exclusive && Undisturbed(m, took, w, ticks, k, x)
    ensures AtFront(OursAfter(m, took, w, ticks, n), x)
  {
    FrontUntilPlanned(m, took, w, ticks, k, n, x);
    SaneUpTo(w, ticks, n);
    BothSized(m, took, w, ticks[..n]);
    hide Sane, UnplannedFrom, Punctual;
  }

  /** The cycles as a run. */
  lemma RunFromFront(m: Machine, took: string -> real, w: World, ticks: seq<Tick>, k: nat, x: PendingEntry)
    returns (trace: seq<World>)
    requires Sane(w, ticks) && k <= |ticks| && UnplannedFrom(m, took, w, ticks, k, |ticks|, x)
    requires !x.exclusive && Undisturbed(m, took, w, ticks, k, x)
    ensures |trace| == |ticks| + 1 && RunOf(m, trace, x, k, |ticks|)
    ensures forall i :: 0 <= i <= |ticks| ==> trace[i] == OursAfter(m, took, w, ticks, i)
  {
    trace := seq(|ticks| + 1, i requires 0 <= i <= |ticks| => OursAfter(m, took, w, ticks, i));
    forall i | k <= i <= |ticks| ensures AtFront(trace[i], x) {
      StaysAtFront(m, took, w, ticks, k, i, x);
    }
    forall i | k <= i < |ticks| ensures Next(m, trace[i], trace[i + 1]) {
      OursStep(m, took, w, ticks, i);
    }
  }

  /** Never later than strict FIFO, once at the front.  Let `x`, not exclusive, be at the front of our
      queue after `k` cycles with nothing exclusive in flight, and let strict FIFO start it after the last
      cycle, wherever it stands in its queue.  If whatever was in flight here after `k` cycles, and should
      by its estimate still hold then, is in flight under strict FIFO, and from the `k`-th cycle on no task
      outlives its estimate and the canary does not hold `x`, then this scheduler has planned `x` by then. */
  lemma NeverLaterFromFront(m: Machine, took: string -> real, w: World, ticks: seq<Tick>, k: nat, x: PendingEntry)
    requires Sane(w, ticks) && k <= |ticks| && !x.exclusive && Undisturbed(m, took, w, ticks, k, x)
    requires var v := OursAfter(m, took, w, ticks, k); v.queue != [] && v.queue[0] == x && NoExclusiveInFlight(v)
    requires Among(x, FifoAt(m, Strict(m, took, w, ticks)))
    requires NoneEarly(OursAfter(m, took, w, ticks, k), Strict(m, took, w, ticks))
    ensures exists i :: k <= i <= |ticks| && Planned(m, OursAfter(m, took, w, ticks, i), x)
  {
    var n := |ticks|;
    if UnplannedFrom(m, took, w, ticks, k, n, x) {
      var trace := RunFromFront(m, took, w, ticks, k, x);
      BothOrderly(m, took, w, ticks);
      BothSized(m, took, w, ticks);
      OrderlyQueue(Everyone(w, ticks), Strict(m, took, w, ticks));
      NowAfter(m, took, w, ticks);
      assert ticks[..n] == ticks;
      hide Sane, Undisturbed, UnplannedFrom, Orderly, WorldSized, Planned, FitsFree, NoExclusiveInFlight, Punctual;
      InTime(m, trace, Strict(m, took, w, ticks), x, k, n);
    }
  }

  lemma InTime(m: Machine, trace: seq<World>, strict: World, x: PendingEntry, k: nat, n: nat)
    requires RunOf(m, trace, x, k, n) && NoExclusiveInFlight(trace[k])
    requires WorldSized(strict) && DistinctIds(strict.queue) && Among(x, FifoAt(m, strict))
      && NoneEarly(trace[k], strict)
    requires strict.now == trace[n].now && forall i :: k <= i < n ==> !Planned(m, trace[i], x)
    ensures Planned(m, trace[k], x) || Planned(m, trace[n], x)
  {
    if FitsFree(m, trace[k], x) {
      FittingHeadIsPlanned(m, trace[k], x);
    } else {
      StartsNoSooner(m, trace[k], strict, x);
      if k < n {
        ReservationNeverSlips(m, trace, x, k, n);
      } else {
        var when := trace[k].now + ReservationAt(m, trace[k], x).seconds;
        AppointedWhenDue(m, trace[k], x, when);
        AppointmentMet(m, trace[k], x, when);
      }
    }
  }

  // ----- if nobody passed before -----

  lemma {:induction false} RunningTwice(tasks: seq<Task>, now: real, later: real, took: string -> real)
    requires now <= later
    ensures StillRunning(StillRunning(tasks, now, took), later, took) == StillRunning(tasks, later, took)
  {
    if tasks != [] {
      var pre, t := tasks[..|tasks| - 1], tasks[|tasks| - 1];
      RunningTwice(pre, now, later, took);
      RunningJoined(StillRunning(pre, now, took), if now - t.started < took(t.entry.id) then [t] else [], later, took);
      assert [t][..0] == [];
    }
  }

  lemma {:induction false} RunningJoined(a: seq<Task>, b: seq<Task>, now: real, took: string -> real)
    ensures StillRunning(a + b, now, took) == StillRunning(a, now, took) + StillRunning(b, now, took)
  {
    hide StillRunning;
    if b == [] {
      NoneRunning(now, took);
      assert a + b == a;
    } else {
      var front, t := b[..|b| - 1], b[|b| - 1];
      RunningJoined(a, front, now, took);
      RunningSnoc(a + front, t, now, took);
      RunningSnoc(front, t, now, took);
      assert a + b == (a + front) + [t] && b == front + [t];
    }
  }

  lemma {:induction false} RunningOfSub(xs: seq<Task>, ys: seq<Task>, now: real, took: string -> real)
    requires Sub(xs, ys)
    ensures Sub(StillRunning(xs, now, took), StillRunning(ys, now, took))
    decreases |ys|
  {
    if ys != [] {
      var pre, t := ys[..|ys| - 1], ys[|ys| - 1];
      var running := StillRunning(pre, now, took);
      assert running + [] == running;
      if Sub(xs, pre) {
        RunningOfSub(xs, pre, now, took);
        SubSnoc(StillRunning(xs, now, took), running, t);
      } else {
        var most := StillRunning(xs[..|xs| - 1], now, took);
        RunningOfSub(xs[..|xs| - 1], pre, now, took);
        SubSnoc(most, running, t);
        assert most + [] == most;
      }
    }
  }

  lemma AdvanceKeeps(v: World, admitted: seq<Placement>, rr: int, tick: Tick, took: string -> real, first: seq<Task>,
                     before: real)
    requires before <= tick.now && Sub(StillRunning(first, before, took), v.tasks)
    ensures Sub(StillRunning(first, tick.now, took), Advance(v, admitted, rr, tick, took).tasks)
  {
    var sent := Shipped(Sent(admitted, tick.refused), v.now);
    RunningOfSub(StillRunning(first, before, took), v.tasks, tick.now, took);
    RunningTwice(first, before, tick.now, took);
    RunningJoined(v.tasks, sent, tick.now, took);
    hide StillRunning, Sub;
    var kept, more := StillRunning(v.tasks, tick.now, took), StillRunning(sent, tick.now, took);
    NothingIsSub(more);
    SubAfter(kept, [], more);
    assert kept + [] == kept;
    SubTransitive(StillRunning(first, tick.now, took), kept, kept + more);
  }

  /** What strict FIFO had in flight and has not yet run for its time is still in flight. */
  lemma {:induction false} StrictKeeps(m: Machine, took: string -> real, w: World, ticks: seq<Tick>, k: nat)
    requires Sane(w, ticks) && k <= |ticks|
    ensures Sub(StillRunning(Strict(m, took, w, ticks[..k]).tasks, NowAt(w, ticks), took),
                Strict(m, took, w, ticks).tasks)
    decreases |ticks|
  {
    var n := |ticks|;
    var first := Strict(m, took, w, ticks[..k]).tasks;
    if k == n {
      assert ticks[..k] == ticks;
      hide StillRunning, Strict, NowAt;
      RunningIsSub(first, NowAt(w, ticks), took);
    } else {
      var pre := ticks[..n - 1];
      var v := Strict(m, took, w, pre);
      SanePrefix(w, ticks);
      assert pre[..k] == ticks[..k];
      hide Sane, Advance, Sub, StillRunning, FifoAt;
      StrictKeeps(m, took, w, pre, k);
      AdvanceKeeps(v, FifoAt(m, v), FifoIndexAt(m, v), ticks[n - 1], took, first, NowAt(w, pre));
    }
  }

  lemma {:induction false} HoldingStillRuns(tasks: seq<Task>, when: real, took: string -> real)
    requires forall t :: t in tasks && Holds(t, when) ==> when - t.started < took(t.entry.id)
    ensures Sub(StillHolding(tasks, when), StillRunning(tasks, when, took))
  {
    if tasks != [] {
      var pre, t := tasks[..|tasks| - 1], tasks[|tasks| - 1];
      HoldingStillRuns(pre, when, took);
      var held, running := StillHolding(pre, when), StillRunning(pre, when, took);
      SubSnoc(held, running, t);
      assert held + [] == held && running + [] == running;
      assert t in tasks;
    }
  }

  /** Never later than strict FIFO for a task that nothing overtook on its way to the front.  If in the
      cycles before `x` came to the front nobody passed a blocked head, and no task then in flight ends
      before its estimate, then, on the same terms, `x` is planned here by the time strict FIFO starts it. */
  lemma NeverLaterThanFifo(m: Machine, took: string -> real, w: World, ticks: seq<Tick>, k: nat, x: PendingEntry)
    requires Sane(w, ticks) && k <= |ticks| && !x.exclusive && Undisturbed(m, took, w, ticks, k, x)
    requires var v := OursAfter(m, took, w, ticks, k); v.queue != [] && v.queue[0] == x && NoExclusiveInFlight(v)
    requires Among(x, FifoAt(m, Strict(m, took, w, ticks)))
    requires NobodyPassed(m, took, w, ticks[..k])
    requires forall t :: t in OursAfter(m, took, w, ticks, k).tasks && Holds(t, NowAt(w, ticks)) ==>
      NowAt(w, ticks) - t.started < took(t.entry.id)
    ensures exists i :: k <= i <= |ticks| && Planned(m, OursAfter(m, took, w, ticks, i), x)
  {
    var v, strict := OursAfter(m, took, w, ticks, k), Strict(m, took, w, ticks);
    SaneUpTo(w, ticks, k);
    SameUntilPassed(m, took, w, ticks[..k]);
    NowAfter(m, took, w, ticks);
    hide Sane, Undisturbed, Planned, FifoAt, NobodyPassed, NoExclusiveInFlight, Among;
    HoldingStillRuns(v.tasks, NowAt(w, ticks), took);
    StrictKeeps(m, took, w, ticks, k);
    SubTransitive(StillHolding(v.tasks, strict.now), StillRunning(v.tasks, strict.now, took), strict.tasks);
    NeverLaterFromFront(m, took, w, ticks, k, x);
  }
}
