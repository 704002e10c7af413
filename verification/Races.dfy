/** Whole runs of this scheduler and of strict FIFO on the same work: exactly when strict FIFO is the
    first to start a task, and which tasks are to blame. */
module Races {
  import opened Admission
  import opened Planning
  import opened Reservations
  import opened Runs
  import opened Turns
  import opened Fairness
  import opened Twins
  import opened SideBySide

  lemma BothSized(m: Machine, took: string -> real, w: World, ticks: seq<Tick>)
    requires Sane(w, ticks)
    ensures WorldSized(Ours(m, took, w, ticks)) && WorldSized(Strict(m, took, w, ticks))
  {
    var all := Everyone(w, ticks);
    BothOrderly(m, took, w, ticks);
    assert forall e :: e in all ==> Sized(e);
    OrderlySized(all, Ours(m, took, w, ticks));
    OrderlySized(all, Strict(m, took, w, ticks));
  }

  lemma OrderlySized(all: seq<PendingEntry>, w: World)
    requires Orderly(all, w) && forall e :: e in all ==> Sized(e)
    ensures WorldSized(w)
  {
    forall i | 0 <= i < |w.tasks| ensures Sized(w.tasks[i].entry) {
      assert w.tasks[i] in w.tasks;
    }
    forall i | 0 <= i < |w.queue| ensures Sized(w.queue[i]) {
      assert w.queue[i] in w.queue && w.queue[i] in Only(all, IdsIn(w.queue));
    }
  }

  // ----- misplaced means moved to another GPU -----

  lemma BesideDistinct(m: Machine, all: seq<PendingEntry>, ours: World, strict: World, j: int)
    requires DistinctIds(all) && Orderly(all, ours) && 0 <= j <= |FifoAt(m, ours)|
    ensures DistinctTasks(InBoth(ours, strict) + Shipped(FifoAt(m, ours)[..j], ours.now))
  {
    OrderlyQueue(all, ours);
    FifoAtIsPrefix(m, ours);
    TasksOnlyIsSub(ours.tasks, IdsIn(EntriesOf(strict.tasks)));
    var both, starts := InBoth(ours, strict), FifoAt(m, ours);
    hide FifoAt;
    forall a, b | 0 <= a < |both| && 0 <= b < j ensures both[a].entry.id != ours.queue[b].id {
      assert both[a] in both && ours.queue[b] in ours.queue;
    }
  }

  /** A task is misplaced only if it needs VRAM and something stands on another GPU than it does under
      strict FIFO: otherwise what leaves it room there leaves it room here. */
  lemma MisplacedMeansScattered(m: Machine, all: seq<PendingEntry>, ours: World, strict: World, q: int, j: int)
    requires DistinctIds(all) && Orderly(all, ours) && Orderly(all, strict) && WorldSized(strict)
    requires 0 <= j <= q < |ours.queue| && Among(ours.queue[q], FifoAt(m, strict)) && MisplacedAt(m, ours, strict, j)
    requires forall i :: 0 <= i <= j ==> ours.queue[i].id in IdsIn(strict.queue)
    ensures ours.queue[j].vram > 0.0 && Scattered(WithStarts(m, ours), WithStarts(m, strict))
  {
    var task := ours.queue[j];
    var k := StartedBeforeInBoth(m, all, ours, strict, q, j);
    var xs := InBoth(ours, strict) + Shipped(FifoAt(m, ours)[..j], ours.now);
    var beside := strict.tasks + Shipped(FifoAt(m, strict)[..k], strict.now);
    BesideDistinct(m, all, ours, strict, j);
    StartsSized(m, strict);
    FifoAtGoesInTurn(m, strict);
    hide FifoAt, MayStart, Orderly;
    if task.vram <= 0.0 {
      WithinMayStart(m, xs, beside, task, false);
    } else if !Scattered(WithStarts(m, ours), WithStarts(m, strict)) {
      WithinMayStart(m, xs, beside, task, true);
    }
  }

  // ----- until something is lost -----

  /** In no cycle so far has strict FIFO started a task that waited here and was not planned. */
  ghost predicate NothingLost(m: Machine, took: string -> real, w: World, ticks: seq<Tick>) {
    forall n :: 0 <= n < |ticks| ==> !LosesAfter(m, took, w, ticks[..n])
  }

  /** After these cycles strict FIFO starts a task that waits here and is not planned. */
  ghost predicate LosesAfter(m: Machine, took: string -> real, w: World, ticks: seq<Tick>) {
    exists x :: Lost(m, Ours(m, took, w, ticks), Strict(m, took, w, ticks), x)
  }

  /** Whatever waits here waits under strict FIFO, and whatever is in flight here waits there, or is
      in flight there and was started no earlier. */
  ghost predicate Abreast(ours: World, strict: World) {
    && ours.now == strict.now
    && (forall e :: e in ours.queue ==> e in strict.queue)
    && (forall t :: t in ours.tasks ==> t.entry in strict.queue || FlyingThere(t, strict))
  }

  ghost predicate FlyingThere(t: Task, strict: World) {
    exists u :: u in strict.tasks && u.entry == t.entry && t.started <= u.started
  }

  lemma NothingLostBefore(m: Machine, took: string -> real, w: World, ticks: seq<Tick>)
    requires NothingLost(m, took, w, ticks) && ticks != []
    ensures var n := |ticks| - 1;
      NothingLost(m, took, w, ticks[..n]) && !LosesAfter(m, took, w, ticks[..n])
  {
    hide LosesAfter;
    var pre := ticks[..|ticks| - 1];
    assert forall i :: 0 <= i < |pre| ==> pre[..i] == ticks[..i];
  }

  /** A queued task of that name is that task. */
  lemma SameQueued(queue: seq<PendingEntry>, admitted: seq<Placement>, a: Placement, e: PendingEntry)
    requires DistinctIds(queue) && FromQueue(admitted, queue) && a in admitted && e in queue && a.task.id == e.id
    ensures a.task == e && Among(e, admitted)
  {
    SameIdSameEntry(queue, a.task, e);
    var i :| 0 <= i < |admitted| && admitted[i] == a;
  }

  lemma QueueAbreast(ours: World, strict: World, mine: seq<Placement>, theirs: seq<Placement>, rr: int, ss: int,
                     tick: Tick, took: string -> real, e: PendingEntry)
    requires DistinctIds(strict.queue) && FromQueue(theirs, strict.queue)
    requires e in ours.queue ==> e in strict.queue && (Among(e, theirs) ==> Among(e, mine))
    requires e in Advance(ours, mine, rr, tick, took).queue
    ensures e in Advance(strict, theirs, ss, tick, took).queue
  {
    QueuedNext(ours, mine, rr, tick, took, e);
    QueuedNext(strict, theirs, ss, tick, took, e);
    hide Advance;
    if e !in tick.arrivals {
      forall a | a in theirs && a.task.id == e.id ensures a.task.id in tick.refused {
        SameQueued(strict.queue, theirs, a, e);
        var i :| 0 <= i < |mine| && mine[i].task == e;
        assert mine[i] in mine;
      }
    }
  }

  lemma StartedThere(strict: World, theirs: seq<Placement>, ss: int, tick: Tick, took: string -> real, t: Task)
    requires DistinctIds(strict.queue) && FromQueue(theirs, strict.queue)
    requires t.entry in strict.queue && t.started <= strict.now && tick.now - t.started < took(t.entry.id)
    ensures var strict' := Advance(strict, theirs, ss, tick, took);
      t.entry in strict'.queue || FlyingThere(t, strict')
  {
    QueuedNext(strict, theirs, ss, tick, took, t.entry);
    var strict' := Advance(strict, theirs, ss, tick, took);
    if t.entry !in strict'.queue {
      var a :| a in theirs && a.task.id == t.entry.id && a.task.id !in tick.refused;
      SameQueued(strict.queue, theirs, a, t.entry);
      InFlightNext(strict, theirs, ss, tick, took, Task(a.task, a.gpu, strict.now));
    }
  }

  lemma FlightAbreast(ours: World, strict: World, mine: seq<Placement>, theirs: seq<Placement>, rr: int, ss: int,
                      tick: Tick, took: string -> real, t: Task)
    requires DistinctIds(strict.queue) && FromQueue(theirs, strict.queue) && FromQueue(mine, ours.queue)
    requires Abreast(ours, strict) && (t in ours.tasks ==> t.started <= ours.now)
    requires t in Advance(ours, mine, rr, tick, took).tasks
    ensures var strict' := Advance(strict, theirs, ss, tick, took);
      t.entry in strict'.queue || FlyingThere(t, strict')
  {
    InFlightNext(ours, mine, rr, tick, took, t);
    hide Advance;
    if t.entry in strict.queue {
      StartedThere(strict, theirs, ss, tick, took, t);
    } else {
      var u :| u in strict.tasks && u.entry == t.entry && t.started <= u.started;
      InFlightNext(strict, theirs, ss, tick, took, u);
    }
  }

  lemma StaysAbreast(m: Machine, took: string -> real, all: seq<PendingEntry>, ours: World, strict: World, tick: Tick)
    requires DistinctIds(all) && Orderly(all, ours) && Orderly(all, strict) && Abreast(ours, strict)
    requires forall x :: !Lost(m, ours, strict, x)
    ensures Abreast(Advance(ours, PlanAt(m, ours).admitted, PlanAt(m, ours).rr, tick, took),
                    Advance(strict, FifoAt(m, strict), FifoIndexAt(m, strict), tick, took))
  {
    var mine, theirs, rr, ss := PlanAt(m, ours).admitted, FifoAt(m, strict), PlanAt(m, ours).rr, FifoIndexAt(m, strict);
    OrderlyQueue(all, ours);
    OrderlyQueue(all, strict);
    StartsAreFromQueue(m, ours);
    StartsAreFromQueue(m, strict);
    hide PlanAt, FifoAt, FromQueue;
    forall e | e in Advance(ours, mine, rr, tick, took).queue
      ensures e in Advance(strict, theirs, ss, tick, took).queue
    {
      assert !Lost(m, ours, strict, e);
      QueueAbreast(ours, strict, mine, theirs, rr, ss, tick, took, e);
    }
    forall t | t in Advance(ours, mine, rr, tick, took).tasks
      ensures t.entry in Advance(strict, theirs, ss, tick, took).queue
              || FlyingThere(t, Advance(strict, theirs, ss, tick, took))
    {
      FlightAbreast(ours, strict, mine, theirs, rr, ss, tick, took, t);
    }
  }

  lemma {:induction false} AbreastUntilLost(m: Machine, took: string -> real, w: World, ticks: seq<Tick>)
    requires Sane(w, ticks) && NothingLost(m, took, w, ticks)
    ensures Abreast(Ours(m, took, w, ticks), Strict(m, took, w, ticks))
  {
    if ticks == [] {
      assert forall t :: t in w.tasks ==> FlyingThere(t, w);
    } else {
      var pre := ticks[..|ticks| - 1];
      SanePrefix(w, ticks);
      NothingLostBefore(m, took, w, ticks);
      AbreastUntilLost(m, took, w, pre);
      BothOrderly(m, took, w, pre);
      hide Sane, NothingLost, Abreast, Orderly;
      StaysAbreast(m, took, Everyone(w, pre), Ours(m, took, w, pre), Strict(m, took, w, pre), ticks[|ticks| - 1]);
    }
  }

  /** The tasks in flight here alone are those that strict FIFO has yet to start. */
  lemma AloneIsEarly(all: seq<PendingEntry>, ours: World, strict: World, t: Task)
    requires DistinctIds(all) && Orderly(all, ours) && Orderly(all, strict) && Abreast(ours, strict) && t in ours.tasks
    ensures t !in InBoth(ours, strict) <==> t.entry in strict.queue
  {
    if t in InBoth(ours, strict) {
      var u := InBothMatched(all, ours, strict, t);
    }
    if FlyingThere(t, strict) {
      FlyingInBoth(ours, strict, t);
    }
  }

  lemma FlyingInBoth(ours: World, strict: World, t: Task)
    requires t in ours.tasks && FlyingThere(t, strict)
    ensures t in InBoth(ours, strict)
  {
    var u :| u in strict.tasks && u.entry == t.entry && t.started <= u.started;
    var i :| 0 <= i < |strict.tasks| && strict.tasks[i] == u;
    assert EntriesOf(strict.tasks)[i] == t.entry;
  }

  // ----- the first loss -----

  /** Task `q` does not pass in its turn, and task `j`, there or ahead of it, is held up: crowded out,
      or in need of VRAM where something stands on another GPU than it does under strict FIFO. */
  ghost predicate HeldBackAt(m: Machine, ours: World, strict: World, q: int, j: int)
    ensures HeldBackAt(m, ours, strict, q, j) ==> 0 <= q < |ours.queue|
  {
    && 0 <= j <= q < |ours.queue| && !PassesInTurn(m, ours, q)
    && (|| CrowdedOutAt(m, ours, strict, j)
        || (&& MisplacedAt(m, ours, strict, j) && ours.queue[j].vram > 0.0
            && Scattered(WithStarts(m, ours), WithStarts(m, strict))))
  }

  /** Exactly when strict FIFO is the first to start a task, over runs of any length and for a task
      anywhere in the queue.  As long as nothing has been lost, strict FIFO starts `x` in a cycle and this
      scheduler does not, if and only if strict FIFO starts it, it does not pass a blocked head in its
      turn, and some task up to it is held up. */
  lemma FirstLossExactly(m: Machine, took: string -> real, w: World, ticks: seq<Tick>, x: PendingEntry)
    requires Sane(w, ticks) && NothingLost(m, took, w, ticks)
    ensures var ours, strict := Ours(m, took, w, ticks), Strict(m, took, w, ticks);
      Lost(m, ours, strict, x) <==>
        Among(x, FifoAt(m, strict)) && exists q, j :: HeldBackAt(m, ours, strict, q, j) && ours.queue[q] == x
  {
    var ours, strict, all := Ours(m, took, w, ticks), Strict(m, took, w, ticks), Everyone(w, ticks);
    BothOrderly(m, took, w, ticks);
    BothSized(m, took, w, ticks);
    AbreastUntilLost(m, took, w, ticks);
    OrderlyQueue(all, ours);
    LossInOrder(m, all, ours, strict, x);
  }

  lemma LossInOrder(m: Machine, all: seq<PendingEntry>, ours: World, strict: World, x: PendingEntry)
    requires DistinctIds(all) && Orderly(all, ours) && Orderly(all, strict) && WorldSized(ours) && WorldSized(strict)
    requires DistinctIds(ours.queue) && Abreast(ours, strict)
    ensures Lost(m, ours, strict, x) <==>
      Among(x, FifoAt(m, strict)) && exists q, j :: HeldBackAt(m, ours, strict, q, j) && ours.queue[q] == x
  {
    hide Orderly, Lost, HeldUpAt, HeldBackAt, FifoAt, WorldSized, Abreast, Among;
    LostExactly(m, ours, strict, x);
    if Among(x, FifoAt(m, strict)) && HeldBack(m, ours, strict, x) {
      var q, j :| HeldUpAt(m, ours, strict, x, q, j);
      HeldUpIsHeldBack(m, all, ours, strict, x, q, j);
    }
    forall q, j | HeldBackAt(m, ours, strict, q, j) ensures HeldUpAt(m, ours, strict, ours.queue[q], q, j) {
      HeldBackIsHeldUp(m, ours, strict, q, j);
    }
  }

  lemma HeldBackIsHeldUp(m: Machine, ours: World, strict: World, q: int, j: int)
    requires HeldBackAt(m, ours, strict, q, j)
    ensures HeldUpAt(m, ours, strict, ours.queue[q], q, j)
  {
    hide CrowdedOutAt, MisplacedAt, PassesInTurn, Scattered;
  }

  lemma HeldUpIsHeldBack(m: Machine, all: seq<PendingEntry>, ours: World, strict: World, x: PendingEntry, q: int,
                         j: int)
    requires DistinctIds(all) && Orderly(all, ours) && Orderly(all, strict) && WorldSized(strict)
    requires Abreast(ours, strict) && Among(x, FifoAt(m, strict)) && HeldUpAt(m, ours, strict, x, q, j)
    ensures HeldBackAt(m, ours, strict, q, j) && ours.queue[q] == x
  {
    assert forall i :: 0 <= i <= j ==> ours.queue[i] in ours.queue;
    hide Orderly, CrowdedOutAt, MisplacedAt, FifoAt, WorldSized, PassesInTurn, Scattered, WithStarts, Among;
    if MisplacedAt(m, ours, strict, j) {
      MisplacedMeansScattered(m, all, ours, strict, q, j);
    }
  }

  /** Until something is lost, what is in flight here alone is what strict FIFO has yet to start. */
  lemma AloneAreEarly(m: Machine, took: string -> real, w: World, ticks: seq<Tick>, t: Task)
    requires Sane(w, ticks) && NothingLost(m, took, w, ticks) && t in Ours(m, took, w, ticks).tasks
    ensures var ours, strict := Ours(m, took, w, ticks), Strict(m, took, w, ticks);
      t !in InBoth(ours, strict) <==> t.entry in strict.queue
  {
    BothOrderly(m, took, w, ticks);
    AbreastUntilLost(m, took, w, ticks);
    hide Orderly, Abreast, InBoth;
    AloneIsEarly(Everyone(w, ticks), Ours(m, took, w, ticks), Strict(m, took, w, ticks), t);
  }

  /** Something is lost sooner or later if and only if, in some cycle before which nothing was, strict
      FIFO starts a task that is held back here. */
  lemma EverLosesExactly(m: Machine, took: string -> real, w: World, ticks: seq<Tick>)
    requires Sane(w, ticks)
    ensures !NothingLost(m, took, w, ticks) <==>
      exists n :: 0 <= n < |ticks| && NothingLost(m, took, w, ticks[..n]) && LossIsDue(m, took, w, ticks[..n])
  {
    if !NothingLost(m, took, w, ticks) {
      var n := FirstLoss(m, took, w, ticks);
      SaneUpTo(w, ticks, n);
      hide Sane, NothingLost, LosesAfter, LossIsDue;
      LosesWhenDue(m, took, w, ticks[..n]);
    }
    if n :| 0 <= n < |ticks| && NothingLost(m, took, w, ticks[..n]) && LossIsDue(m, took, w, ticks[..n]) {
      SaneUpTo(w, ticks, n);
      hide Sane, LosesAfter, LossIsDue;
      LosesWhenDue(m, took, w, ticks[..n]);
    }
  }

  /** Strict FIFO starts some task that is held back here. */
  ghost predicate LossIsDue(m: Machine, took: string -> real, w: World, ticks: seq<Tick>) {
    var ours, strict := Ours(m, took, w, ticks), Strict(m, took, w, ticks);
    exists q, j :: HeldBackAt(m, ours, strict, q, j) && Among(ours.queue[q], FifoAt(m, strict))
  }

  lemma LosesWhenDue(m: Machine, took: string -> real, w: World, ticks: seq<Tick>)
    requires Sane(w, ticks) && NothingLost(m, took, w, ticks)
    ensures LosesAfter(m, took, w, ticks) <==> LossIsDue(m, took, w, ticks)
  {
    var ours, strict := Ours(m, took, w, ticks), Strict(m, took, w, ticks);
    hide Sane, NothingLost, Lost, HeldBackAt, Among, FifoAt, Ours, Strict;
    if x :| Lost(m, ours, strict, x) {
      FirstLossExactly(m, took, w, ticks, x);
    }
    if q, j :| HeldBackAt(m, ours, strict, q, j) && Among(ours.queue[q], FifoAt(m, strict)) {
      FirstLossExactly(m, took, w, ticks, ours.queue[q]);
    }
  }

  lemma {:induction false} FirstLoss(m: Machine, took: string -> real, w: World, ticks: seq<Tick>) returns (n: int)
    requires !NothingLost(m, took, w, ticks)
    ensures 0 <= n < |ticks| && NothingLost(m, took, w, ticks[..n]) && LosesAfter(m, took, w, ticks[..n])
  {
    hide LosesAfter;
    n :| 0 <= n < |ticks| && LosesAfter(m, took, w, ticks[..n]);
    if !NothingLost(m, took, w, ticks[..n]) {
      var k := FirstLoss(m, took, w, ticks[..n]);
      assert ticks[..n][..k] == ticks[..k];
      n := k;
    }
  }

  lemma {:induction false} SaneUpTo(w: World, ticks: seq<Tick>, n: int)
    requires Sane(w, ticks) && 0 <= n <= |ticks|
    ensures Sane(w, ticks[..n])
    decreases |ticks| - n
  {
    if n == |ticks| {
      assert ticks[..n] == ticks;
    } else {
      SaneUpTo(w, ticks, n + 1);
      SanePrefix(w, ticks[..n + 1]);
      assert ticks[..n + 1][..n] == ticks[..n];
    }
  }
}
