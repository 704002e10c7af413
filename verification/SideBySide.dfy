/** This scheduler beside strict FIFO on the same work: exactly when strict FIFO starts a queued task
    and this scheduler does not, wherever in the queue the task stands and however long both have run. */
module SideBySide {
  import opened Quantities
  import opened Admission
  import opened Planning
  import opened Reservations
  import opened StrictFifo
  import opened Runs
  import opened Turns
  import opened Fairness
  import opened Twins

  // ----- fewer tasks, more room, in any order -----

  /** Every task of `xs` is also in `ys`; `placed`: on the same GPU. */
  ghost predicate Within(xs: seq<Task>, ys: seq<Task>, placed: bool) {
    forall x :: x in xs ==> Matched(x, ys, placed)
  }

  ghost predicate Matched(x: Task, ys: seq<Task>, placed: bool) {
    exists y :: y in ys && y.entry == x.entry && (placed ==> y.gpu == x.gpu)
  }

  lemma TakeCommutes(p: Pools, m: real, v: real, g: Option<int>, n: real, u: real, h: Option<int>)
    ensures Take(Take(p, m, v, g), n, u, h) == Take(Take(p, n, u, h), m, v, g)
  {
    var a, b := Take(Take(p, m, v, g), n, u, h), Take(Take(p, n, u, h), m, v, g);
    assert a.gpu.Keys == p.gpu.Keys == b.gpu.Keys;
    assert forall i :: i in p.gpu ==> a.gpu[i] == b.gpu[i];
  }

  /** It does not matter where in the list a task stands. */
  lemma {:induction false} CommittedAnywhere(p: Pools, before: seq<Task>, t: Task, after: seq<Task>)
    ensures Committed(p, before + [t] + after) ==
      Take(Committed(p, before + after), t.entry.memory, t.entry.vram, t.gpu)
  {
    if after == [] {
      assert before + [t] + after == before + [t] && (before + [t])[..|before|] == before && before + after == before;
    } else {
      var n := |after| - 1;
      var last := after[n];
      CommittedAnywhere(p, before, t, after[..n]);
      assert before + [t] + after == (before + [t] + after[..n]) + [last];
      assert before + after == (before + after[..n]) + [last];
      assert (before + after)[..|before| + n] == before + after[..n];
      assert (before + [t] + after)[..|before| + 1 + n] == before + [t] + after[..n];
      TakeCommutes(Committed(p, before + after[..n]), t.entry.memory, t.entry.vram, t.gpu,
                   last.entry.memory, last.entry.vram, last.gpu);
    }
  }

  /** Some of the tasks, in whatever order, leave at least as much free. */
  lemma {:induction false} WithinLeavesRoom(p: Pools, xs: seq<Task>, ys: seq<Task>)
    requires DistinctTasks(xs) && Within(xs, ys, true) && TasksSized(ys)
    ensures Roomier(Committed(p, ys), Committed(p, xs))
    decreases |xs|
  {
    if xs == [] {
      NothingIsSub(ys);
      FewerCommitted(p, xs, ys);
    } else {
      var pre, x := xs[..|xs| - 1], xs[|xs| - 1];
      assert x in xs && Matched(x, ys, true);
      var y :| y in ys && y.entry == x.entry && y.gpu == x.gpu;
      var i :| 0 <= i < |ys| && ys[i] == y;
      var rest := ys[..i] + ys[i + 1..];
      assert ys == ys[..i] + [y] + ys[i + 1..];
      forall z | z in pre ensures Matched(z, rest, true) {
        var k :| 0 <= k < |pre| && pre[k] == z;
        assert xs[k].entry.id != x.entry.id;
        assert z in xs && Matched(z, ys, true);
        var u :| u in ys && u.entry == z.entry && u.gpu == z.gpu;
        assert u in rest;
      }
      WithinLeavesRoom(p, pre, rest);
      CommittedAnywhere(p, ys[..i], y, ys[i + 1..]);
      TakeMonotone(Committed(p, rest), Committed(p, pre), x.entry.memory, x.entry.vram, x.gpu);
    }
  }

  /** The tasks as if none were on a GPU. */
  function Bare(tasks: seq<Task>): (r: seq<Task>)
    ensures |r| == |tasks|
  {
    seq(|tasks|, i requires 0 <= i < |tasks| => tasks[i].(gpu := None))
  }

  /** Memory and slots do not depend on GPUs. */
  lemma {:induction false} BareCommits(p: Pools, tasks: seq<Task>)
    ensures var q, b := Committed(p, tasks), Committed(p, Bare(tasks)); b.memory == q.memory && b.slots == q.slots
  {
    if tasks != [] {
      BareCommits(p, tasks[..|tasks| - 1]);
      assert Bare(tasks)[..|tasks| - 1] == Bare(tasks[..|tasks| - 1]);
    }
  }

  lemma BareWithin(xs: seq<Task>, ys: seq<Task>)
    requires DistinctTasks(xs) && Within(xs, ys, false) && TasksSized(ys)
    ensures DistinctTasks(Bare(xs)) && Within(Bare(xs), Bare(ys), true) && TasksSized(Bare(ys))
  {
    forall x | x in Bare(xs) ensures Matched(x, Bare(ys), true) {
      var i :| 0 <= i < |xs| && Bare(xs)[i] == x;
      assert xs[i] in xs && Matched(xs[i], ys, false);
      var y :| y in ys && y.entry == x.entry;
      var j :| 0 <= j < |ys| && ys[j] == y;
      assert Bare(ys)[j] in Bare(ys);
    }
  }

  /** What may start beside more tasks may start beside some of them: wherever those are, if it needs
      no VRAM, and otherwise if they are on the same GPUs. */
  lemma WithinMayStart(m: Machine, xs: seq<Task>, ys: seq<Task>, task: PendingEntry, placed: bool)
    requires DistinctTasks(xs) && Within(xs, ys, placed) && TasksSized(ys) && (task.vram <= 0.0 || placed)
    requires MayStart(m, ys, task)
    ensures MayStart(m, xs, task)
  {
    var cap := CapacityOf(m, World(0.0, [], [], 0));
    forall i | 0 <= i < |xs|
      ensures exists j :: 0 <= j < |ys| && ys[j].entry == xs[i].entry
    {
      assert xs[i] in xs && Matched(xs[i], ys, placed);
    }
    if placed {
      WithinLeavesRoom(m.Idle(), xs, ys);
      FitsMonotone(cap, task, Committed(m.Idle(), ys), Committed(m.Idle(), xs));
    } else {
      BareWithin(xs, ys);
      WithinLeavesRoom(m.Idle(), Bare(xs), Bare(ys));
      BareCommits(m.Idle(), xs);
      BareCommits(m.Idle(), ys);
    }
  }

  // ----- strict FIFO, task by task -----

  lemma HoldingSnoc(tasks: seq<Task>, t: Task, identity: Option<string>)
    ensures Holding(tasks + [t], identity) <==> Holding(tasks, identity) || t.entry.identity == identity
  {
    HoldingJoined(tasks, [t], identity);
    assert t.entry.identity == identity ==> [t][0].entry.identity == identity;
  }

  /** The identities of the tasks in flight are those held. */
  ghost predicate HeldAre(held: set<string>, tasks: seq<Task>) {
    forall s: string :: s in held <==> Holding(tasks, Some(s))
  }

  ghost predicate NoneExclusive(tasks: seq<Task>) {
    forall i :: 0 <= i < |tasks| ==> !tasks[i].entry.exclusive
  }

  lemma StrictStep(m: Machine, cap: Capacity, tasks: seq<Task>, held: set<string>, task: PendingEntry, gpu: Option<int>,
                   now: real)
    requires HeldAre(held, tasks)
    ensures var more := tasks + [Task(task, gpu, now)];
      && HeldAre(held + IdentityOf(task), more)
      && Committed(m.Idle(), more) == Take(Committed(m.Idle(), tasks), task.memory, task.vram, gpu)
      && (NoneExclusive(more) <==> NoneExclusive(tasks) && !task.exclusive)
  {
    var t := Task(task, gpu, now);
    assert (tasks + [t])[..|tasks|] == tasks;
    forall s: string ensures s in held + IdentityOf(task) <==> Holding(tasks + [t], Some(s)) {
      HoldingSnoc(tasks, t, Some(s));
    }
    assert (tasks + [t])[|tasks|] == t;
  }

  /** The same machine, whatever is in flight. */
  predicate CapacityOn(m: Machine, cap: Capacity) {
    cap.gpuOrder == m.gpuOrder && cap.maxWorkers == m.maxWorkers && cap.snapshotPresent == m.snapshotPresent
  }

  /** Task by task: each start may start beside what is in flight and the starts before it, and the
      first task that is not started may not. */
  ghost predicate InTurn(m: Machine, tasks: seq<Task>, queue: seq<PendingEntry>, starts: seq<Placement>, now: real) {
    && |starts| <= |queue|
    && (forall j :: 0 <= j < |starts| ==> MayStart(m, tasks + Shipped(starts[..j], now), queue[j]))
    && (|starts| < |queue| ==> !MayStart(m, tasks + Shipped(starts, now), queue[|starts|]))
  }

  lemma InTurnCons(m: Machine, tasks: seq<Task>, queue: seq<PendingEntry>, first: Placement, rest: seq<Placement>,
                   now: real)
    requires queue != [] && MayStart(m, tasks, queue[0])
    requires InTurn(m, tasks + [Task(first.task, first.gpu, now)], queue[1..], rest, now)
    ensures InTurn(m, tasks, queue, [first] + rest, now)
  {
    var starts, t := [first] + rest, Task(first.task, first.gpu, now);
    forall j | 0 <= j <= |starts|
      ensures tasks + Shipped(starts[..j], now) ==
        if j == 0 then tasks else (tasks + [t]) + Shipped(rest[..j - 1], now)
    {
      assert j > 0 ==> starts[..j] == [first] + rest[..j - 1];
    }
    assert starts[..|starts|] == starts && rest[..|rest|] == rest;
    hide MayStart;
    assert forall j :: 0 < j < |starts| ==> queue[1..][j - 1] == queue[j];
  }

  lemma {:induction false} FifoGoesInTurn(m: Machine, cap: Capacity, tasks: seq<Task>, queue: seq<PendingEntry>,
                                          held: set<string>, rr: int, now: real)
    requires CapacityOn(m, cap) && NoneExclusive(tasks) && HeldAre(held, tasks)
    ensures InTurn(m, tasks, queue, Fifo(cap, queue, Committed(m.Idle(), tasks), held, rr), now)
    decreases |queue|
  {
    var p := Committed(m.Idle(), tasks);
    var starts := Fifo(cap, queue, p, held, rr);
    assert Shipped([], now) == [] && tasks + [] == tasks;
    if queue != [] && MayStart(m, tasks, queue[0]) {
      var task, choice := queue[0], ChoiceFor(cap, queue[0], p, rr);
      var first := Placement(task, choice.gpu, Front);
      StrictStep(m, cap, tasks, held, task, choice.gpu, now);
      var more := tasks + [Task(task, choice.gpu, now)];
      if task.exclusive {
        assert !NoneExclusive(more) && starts == [first] + [];
        assert Shipped([], now) == [] && more + [] == more;
        assert InTurn(m, more, queue[1..], [], now);
        InTurnCons(m, tasks, queue, first, [], now);
      } else {
        FifoGoesInTurn(m, cap, more, queue[1..], held + IdentityOf(task), choice.next, now);
        InTurnCons(m, tasks, queue, first, starts[1..], now);
        assert starts == [first] + starts[1..];
      }
    }
  }

  /** Strict FIFO in any cycle: exactly those tasks from the front start that may start in turn. */
  lemma FifoAtGoesInTurn(m: Machine, w: World)
    ensures InTurn(m, w.tasks, w.queue, FifoAt(m, w), w.now)
  {
    var running, cap := Running(w.tasks, w.now), CapacityOf(m, w);
    CommittedSlots(m.Idle(), w.tasks);
    if w.queue != [] { RunningReflects(w.tasks, w.now, w.queue[0]); }
    if AnyExclusive(running) {
      assert w.tasks + Shipped([], w.now) == w.tasks;
    } else {
      forall s: string ensures s in HeldBy(running) <==> Holding(w.tasks, Some(s)) {
        HeldReflects(w.tasks, w.now, s);
      }
      RunningNotExclusive(w.tasks, w.now);
      FifoGoesInTurn(m, cap, w.tasks, w.queue, HeldBy(running), w.nextGpu, w.now);
    }
  }

  lemma HeldReflects(tasks: seq<Task>, now: real, s: string)
    ensures s in HeldBy(Running(tasks, now)) <==> Holding(tasks, Some(s))
  {
    RunningReflects(tasks, now, PendingEntry("", 0.0, 0.0, 0.0, None, false, Some(s), true));
  }

  lemma RunningNotExclusive(tasks: seq<Task>, now: real)
    ensures AnyExclusive(Running(tasks, now)) <==> !NoneExclusive(tasks)
  {
    RunningReflects(tasks, now, PendingEntry("", 0.0, 0.0, 0.0, None, false, None, true));
  }

  // ----- what holds a task back -----

  /** The tasks with an id in `ids`. */
  function TasksOnly(tasks: seq<Task>, ids: set<string>): (r: seq<Task>)
    ensures forall t :: t in r <==> t in tasks && t.entry.id in ids
  {
    if tasks == [] then []
    else
      var t := tasks[|tasks| - 1];
      assert tasks == tasks[..|tasks| - 1] + [t];
      TasksOnly(tasks[..|tasks| - 1], ids) + (if t.entry.id in ids then [t] else [])
  }

  /** What is in flight here and under strict FIFO. */
  function InBoth(ours: World, strict: World): seq<Task> {
    TasksOnly(ours.tasks, IdsIn(EntriesOf(strict.tasks)))
  }

  /** Strict FIFO starts a task in this cycle that waits here and is not planned. */
  ghost predicate Lost(m: Machine, ours: World, strict: World, x: PendingEntry) {
    Among(x, FifoAt(m, strict)) && x in ours.queue && !Among(x, PlanAt(m, ours).admitted)
  }

  /** Task `j` of the queue is reached in turn, and could start beside what is in flight here and under
      strict FIFO, but not beside those and what is in flight here alone. */
  ghost predicate CrowdedOutAt(m: Machine, ours: World, strict: World, j: int) {
    && 0 <= j <= |FifoAt(m, ours)| && j < |ours.queue|
    && var before := Shipped(FifoAt(m, ours)[..j], ours.now);
       && MayStart(m, InBoth(ours, strict) + before, ours.queue[j])
       && !MayStart(m, ours.tasks + before, ours.queue[j])
  }

  /** Task `j` of the queue is reached in turn, and could not start even beside those of the tasks in
      flight here that strict FIFO has in flight as well. */
  ghost predicate MisplacedAt(m: Machine, ours: World, strict: World, j: int) {
    && 0 <= j <= |FifoAt(m, ours)| && j < |ours.queue|
    && !MayStart(m, InBoth(ours, strict) + Shipped(FifoAt(m, ours)[..j], ours.now), ours.queue[j])
  }

  /** The task does not pass in its turn, and some task up to it is held up. */
  ghost predicate HeldBack(m: Machine, ours: World, strict: World, x: PendingEntry) {
    exists q, j :: HeldUpAt(m, ours, strict, x, q, j)
  }

  ghost predicate HeldUpAt(m: Machine, ours: World, strict: World, x: PendingEntry, q: int, j: int) {
    && 0 <= j <= q < |ours.queue| && ours.queue[q] == x && !PassesInTurn(m, ours, q)
    && (CrowdedOutAt(m, ours, strict, j) || MisplacedAt(m, ours, strict, j))
  }

  ghost predicate WorldSized(w: World) {
    AllSized(w.queue) && TasksSized(w.tasks)
  }

  lemma {:induction false} TasksOnlyIsSub(tasks: seq<Task>, ids: set<string>)
    ensures Sub(TasksOnly(tasks, ids), tasks)
    ensures DistinctTasks(tasks) ==> DistinctTasks(TasksOnly(tasks, ids))
  {
    if tasks != [] {
      var pre, t := tasks[..|tasks| - 1], tasks[|tasks| - 1];
      TasksOnlyIsSub(pre, ids);
      var r := TasksOnly(pre, ids);
      SubSnoc(r, pre, t);
      assert pre + [t] == tasks && r + [] == r;
      forall i | DistinctTasks(tasks) && 0 <= i < |r| ensures r[i].entry.id != t.entry.id {
        assert r[i] in r && r[i] in pre;
        var k :| 0 <= k < |pre| && pre[k] == r[i];
        assert tasks[k].entry.id != tasks[|tasks| - 1].entry.id;
      }
    }
  }

  lemma StartsSized(m: Machine, w: World)
    requires WorldSized(w)
    ensures TasksSized(w.tasks + Shipped(FifoAt(m, w), w.now))
    ensures forall j :: 0 <= j <= |FifoAt(m, w)| ==> TasksSized(w.tasks + Shipped(FifoAt(m, w)[..j], w.now))
  {
    FifoAtIsPrefix(m, w);
    hide FifoAt;
  }

  /** Held up at `j`: that is where strict FIFO would stop here. */
  lemma HeldUpMeansStopped(m: Machine, ours: World, strict: World, j: int)
    requires WorldSized(ours) && (CrowdedOutAt(m, ours, strict, j) || MisplacedAt(m, ours, strict, j))
    ensures j == |FifoAt(m, ours)|
  {
    var starts := FifoAt(m, ours);
    var before := Shipped(starts[..j], ours.now);
    FifoAtGoesInTurn(m, ours);
    StartsSized(m, ours);
    hide MayStart, FifoAt;
    TasksOnlyIsSub(ours.tasks, IdsIn(EntriesOf(strict.tasks)));
    SubJoin(InBoth(ours, strict), ours.tasks, before);
    if MayStart(m, ours.tasks + before, ours.queue[j]) {
      FewerMayStart(m, InBoth(ours, strict) + before, ours.tasks + before, ours.queue[j]);
    }
  }

  /** In any two worlds: strict FIFO starts a task that waits here and is not planned if and only if
      strict FIFO starts it, it does not pass in its turn, and some task up to it is held up. */
  lemma LostExactly(m: Machine, ours: World, strict: World, x: PendingEntry)
    requires DistinctIds(ours.queue) && WorldSized(ours)
    ensures Lost(m, ours, strict, x) <==> Among(x, FifoAt(m, strict)) && HeldBack(m, ours, strict, x)
  {
    var starts := FifoAt(m, ours);
    FifoAtGoesInTurn(m, ours);
    hide MayStart, FifoAt, PlanAt, PassesInTurn;
    if Lost(m, ours, strict, x) {
      var q :| 0 <= q < |ours.queue| && ours.queue[q] == x;
      StartsExactly(m, ours, q);
      assert starts[..|starts|] == starts;
      assert HeldUpAt(m, ours, strict, x, q, |starts|);
    }
    if HeldBack(m, ours, strict, x) {
      var q, j :| HeldUpAt(m, ours, strict, x, q, j);
      HeldUpMeansStopped(m, ours, strict, j);
      StartsExactly(m, ours, q);
    }
  }

  // ----- held up with nothing in flight here alone -----

  /** Two queues drawn from one list agree on who is ahead of whom. */
  lemma OrderAgrees(all: seq<PendingEntry>, ours: seq<PendingEntry>, strict: seq<PendingEntry>, i: int, q: int)
    returns (k: int, l: int)
    requires DistinctIds(all) && ours == Only(all, IdsIn(ours)) && strict == Only(all, IdsIn(strict))
    requires 0 <= i < q < |ours| && ours[i].id in IdsIn(strict) && ours[q].id in IdsIn(strict)
    ensures 0 <= k < l < |strict| && strict[k] == ours[i] && strict[l] == ours[q]
  {
    assert ours[q] in ours;
    AheadInAll(all, ours, i, q);
    k, l := AheadInStrict(all, strict, IdsIn(strict), ours[i], ours[q]);
  }

  lemma AheadInStrict(all: seq<PendingEntry>, strict: seq<PendingEntry>, ids: set<string>, e: PendingEntry,
                      x: PendingEntry)
    returns (k: int, l: int)
    requires DistinctIds(all) && strict == Only(all, ids) && x in all && e in AheadOf(all, x.id)
    requires e.id in ids && x.id in ids
    ensures 0 <= k < l < |strict| && strict[k] == e && strict[l] == x
  {
    assert x in strict;
    AheadAmongOnly(all, ids, x.id);
    assert e in AheadOf(strict, x.id);
    OnlyKeepsDistinct(all, ids);
    hide Only;
    l :| 0 <= l < |strict| && strict[l] == x;
    AheadIsPrefix(strict, l);
    k :| 0 <= k < l && strict[..l][k] == e;
  }

  lemma AheadInAll(all: seq<PendingEntry>, ours: seq<PendingEntry>, i: int, q: int)
    requires DistinctIds(all) && ours == Only(all, IdsIn(ours)) && 0 <= i < q < |ours|
    ensures ours[i] in AheadOf(all, ours[q].id)
  {
    OnlyKeepsDistinct(all, IdsIn(ours));
    assert ours[q] in ours;
    AheadAmongOnly(all, IdsIn(ours), ours[q].id);
    hide Only, IdsIn;
    AheadIsPrefix(ours, q);
    assert ours[..q][i] == ours[i];
  }

  /** Some task stands on another GPU here than under strict FIFO. */
  ghost predicate Scattered(xs: seq<Task>, ys: seq<Task>) {
    exists x, y :: x in xs && y in ys && x.entry == y.entry && x.gpu != y.gpu
  }

  /** Tasks in flight, and what strict FIFO starts now. */
  ghost function WithStarts(m: Machine, w: World): seq<Task> {
    w.tasks + Shipped(FifoAt(m, w), w.now)
  }

  lemma PositionUnder(all: seq<PendingEntry>, ours: World, strict: World, q: int, j: int, l: int) returns (k: int)
    requires DistinctIds(all) && Orderly(all, ours) && Orderly(all, strict)
    requires 0 <= j <= q < |ours.queue| && 0 <= l < |strict.queue| && strict.queue[l] == ours.queue[q]
    requires ours.queue[j].id in IdsIn(strict.queue)
    ensures 0 <= k <= l && (j < q ==> k < l) && strict.queue[k] == ours.queue[j]
  {
    k := l;
    if j < q {
      assert strict.queue[l] in strict.queue;
      var there: int;
      k, there := OrderAgrees(all, ours.queue, strict.queue, j, q);
      OrderlyQueue(all, strict);
      assert there == l;
    }
  }

  lemma InBothMatched(all: seq<PendingEntry>, ours: World, strict: World, t: Task) returns (u: Task)
    requires DistinctIds(all) && Orderly(all, ours) && Orderly(all, strict) && t in InBoth(ours, strict)
    ensures u in strict.tasks && u.entry == t.entry && t in ours.tasks
  {
    var entries := EntriesOf(strict.tasks);
    var e :| e in entries && e.id == t.entry.id;
    var i :| 0 <= i < |entries| && entries[i] == e;
    u := strict.tasks[i];
    SameIdSameEntry(all, t.entry, u.entry);
  }

  lemma ShippedEntry(starts: seq<Placement>, now: real, t: Task)
    requires t in Shipped(starts, now)
    ensures exists i :: 0 <= i < |starts| && starts[i].task == t.entry && t == Shipped(starts, now)[i]
  {
  }

  /** If strict FIFO starts task `q` of our queue, and everyone up to task `j` waits under strict FIFO
      too, then whatever is in flight in both, or starts before task `j` here, is under strict FIFO in
      flight or started before it. */
  lemma StartedBeforeInBoth(m: Machine, all: seq<PendingEntry>, ours: World, strict: World, q: int, j: int)
    returns (k: int)
    requires DistinctIds(all) && Orderly(all, ours) && Orderly(all, strict)
    requires 0 <= j <= q < |ours.queue| && Among(ours.queue[q], FifoAt(m, strict)) && j <= |FifoAt(m, ours)|
    requires forall i :: 0 <= i <= j ==> ours.queue[i].id in IdsIn(strict.queue)
    ensures 0 <= k < |FifoAt(m, strict)| <= |strict.queue| && strict.queue[k] == ours.queue[j]
    ensures var beside := strict.tasks + Shipped(FifoAt(m, strict)[..k], strict.now);
      var xs := InBoth(ours, strict) + Shipped(FifoAt(m, ours)[..j], ours.now);
      Within(xs, beside, false) && (!Scattered(WithStarts(m, ours), WithStarts(m, strict)) ==> Within(xs, beside, true))
  {
    FifoAtIsPrefix(m, strict);
    var mine, theirs := FifoAt(m, ours), FifoAt(m, strict);
    hide FifoAt, Orderly;
    var l :| 0 <= l < |theirs| && theirs[l].task == ours.queue[q];
    k := PositionUnder(all, ours, strict, q, j, l);
    var beside := strict.tasks + Shipped(theirs[..k], strict.now);
    var xs := InBoth(ours, strict) + Shipped(mine[..j], ours.now);
    forall t | t in xs
      ensures Matched(t, beside, false)
      ensures Matched(t, beside, true) || Scattered(WithStarts(m, ours), WithStarts(m, strict))
    {
      if t in InBoth(ours, strict) {
        var u := InBothMatched(all, ours, strict, t);
        MatchedOrScattered(m, ours, strict, k, t, u);
      } else {
        var u := StartMatched(m, all, ours, strict, j, k, t);
        MatchedOrScattered(m, ours, strict, k, t, u);
      }
    }
  }

  lemma MatchedOrScattered(m: Machine, ours: World, strict: World, k: int, t: Task, u: Task)
    requires 0 <= k <= |FifoAt(m, strict)| && t in WithStarts(m, ours) && t.entry == u.entry
    requires u in strict.tasks + Shipped(FifoAt(m, strict)[..k], strict.now)
    ensures var beside := strict.tasks + Shipped(FifoAt(m, strict)[..k], strict.now);
      Matched(t, beside, false) && (Matched(t, beside, true) || Scattered(WithStarts(m, ours), WithStarts(m, strict)))
  {
    var theirs := FifoAt(m, strict);
    hide FifoAt;
    if u !in strict.tasks {
      ShippedEntry(theirs[..k], strict.now, u);
      var i :| 0 <= i < k && u == Shipped(theirs[..k], strict.now)[i];
      assert u == Shipped(theirs, strict.now)[i];
    }
    assert u in WithStarts(m, strict);
  }

  lemma StartMatched(m: Machine, all: seq<PendingEntry>, ours: World, strict: World, j: int, k: int, t: Task)
    returns (u: Task)
    requires DistinctIds(all) && Orderly(all, ours) && Orderly(all, strict)
    requires 0 <= j <= |FifoAt(m, ours)| && j < |ours.queue| && 0 <= k < |FifoAt(m, strict)| <= |strict.queue|
    requires strict.queue[k] == ours.queue[j] && forall i :: 0 <= i <= j ==> ours.queue[i].id in IdsIn(strict.queue)
    requires t in Shipped(FifoAt(m, ours)[..j], ours.now)
    ensures t in WithStarts(m, ours) && t.entry == u.entry && u in Shipped(FifoAt(m, strict)[..k], strict.now)
  {
    FifoAtIsPrefix(m, ours);
    FifoAtIsPrefix(m, strict);
    var mine, theirs := FifoAt(m, ours), FifoAt(m, strict);
    hide FifoAt, Orderly, IdsIn;
    ShippedEntry(mine[..j], ours.now, t);
    var i :| 0 <= i < j && mine[..j][i].task == t.entry && t == Shipped(mine[..j], ours.now)[i];
    assert t == Shipped(mine, ours.now)[i];
    var n := PositionUnder(all, ours, strict, j, i, k);
    u := Shipped(theirs[..k], strict.now)[n];
  }
}
