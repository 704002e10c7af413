/** Two runs in which strict FIFO starts a task that this scheduler does not, though every task runs
    exactly its estimate and none is cold. */
module LostRaces {
  import opened Quantities
  import opened Admission
  import opened Planning
  import opened StrictFifo
  import opened Runs
  import opened Turns
  import opened Fairness
  import opened Twins
  import opened SideBySide
  import opened Races

  // ----- overtaken before it came to the front -----

  const TEN_GB := Machine(Finite(10.0), map[], [], 4, true)
  const RUNNER := Task(PendingEntry("runner", 6.0, 0.0, 1.0, Some(100.0), false, Some("r"), false), None, 0.0)
  const FIRST := PendingEntry("first", 5.0, 0.0, 1.0, Some(100.0), false, Some("f"), false)
  const SECOND := PendingEntry("second", 4.9, 0.0, 1.0, Some(50.0), false, Some("s"), false)
  const LAST := PendingEntry("last", 3.9, 0.0, 1.0, Some(1000.0), false, Some("l"), false)
  const PASSER := Task(LAST, None, 0.0)

  const NOW := World(0.0, [RUNNER], [FIRST, SECOND, LAST], 0)
  const LATER: seq<Tick> := [Tick(100.0, {}, [])]

  /** Every task runs exactly its estimate. */
  function Estimated(id: string): real {
    if id == "second" then 50.0 else if id == "last" then 1000.0 else 100.0
  }

  /** Behind a head that waits for the runner, a long task passes by rule (a), leaving room for the head
      but not for the head and the task after it.  When the runner ends, on time, strict FIFO starts both,
      and this scheduler only the head; the second waits for as long as the head runs. */
  lemma OvertakenBeforeTheFront()
    ensures PlanAt(TEN_GB, NOW).admitted == [Placement(LAST, None, Disjoint)] && FifoAt(TEN_GB, NOW) == []
    ensures Sane(NOW, LATER) && NothingLost(TEN_GB, Estimated, NOW, LATER)
    ensures Ours(TEN_GB, Estimated, NOW, LATER) == World(100.0, [PASSER], [FIRST, SECOND], 0)
    ensures Strict(TEN_GB, Estimated, NOW, LATER) == World(100.0, [], [FIRST, SECOND, LAST], 0)
    ensures Lost(TEN_GB, Ours(TEN_GB, Estimated, NOW, LATER), Strict(TEN_GB, Estimated, NOW, LATER), SECOND)
    ensures forall now, g :: !Planned(TEN_GB, World(now, [PASSER, Task(FIRST, g, 100.0)], [SECOND], 0), SECOND)
    ensures forall now :: Planned(TEN_GB, World(now, [PASSER], [SECOND], 0), SECOND)
  {
    var m := TEN_GB;
    LastPasses();
    SaneAtFirst();
    RunsApart();
    WhatMayStart();
    hide PlanAt, FifoAt, MayStart;
    NothingLostAtFirst();
    SecondIsLost(World(100.0, [PASSER], [FIRST, SECOND], 0), World(100.0, [], [FIRST, SECOND, LAST], 0));
    forall now, g ensures !Planned(m, World(now, [PASSER, Task(FIRST, g, 100.0)], [SECOND], 0), SECOND) {
      PlannedExactly(m, World(now, [PASSER, Task(FIRST, g, 100.0)], [SECOND], 0), SECOND);
    }
    forall now ensures Planned(m, World(now, [PASSER], [SECOND], 0), SECOND) {
      PlannedExactly(m, World(now, [PASSER], [SECOND], 0), SECOND);
    }
  }

  lemma SaneAtFirst()
    ensures Sane(NOW, LATER)
  {
    var all := [RUNNER.entry, FIRST, SECOND, LAST];
    assert LATER[..0] == [] && EntriesOf([RUNNER]) == [RUNNER.entry];
    assert Everyone(NOW, LATER) == all;
    assert all[0].id == "runner" && all[1].id == "first" && all[2].id == "second" && all[3].id == "last";
    assert "runner"[0] == 'r' && "first"[0] == 'f' && "second"[0] == 's' && "last"[0] == 'l';
  }

  lemma RunsApart()
    requires PlanAt(TEN_GB, NOW).admitted == [Placement(LAST, None, Disjoint)] && PlanAt(TEN_GB, NOW).rr == 0
    requires FifoAt(TEN_GB, NOW) == [] && FifoIndexAt(TEN_GB, NOW) == 0
    ensures Ours(TEN_GB, Estimated, NOW, LATER) == World(100.0, [PASSER], [FIRST, SECOND], 0)
    ensures Strict(TEN_GB, Estimated, NOW, LATER) == World(100.0, [], [FIRST, SECOND, LAST], 0)
  {
    PasserIsLeft();
    RunnerIsDone();
    hide PlanAt, FifoAt, FifoIndexAt, Advance, Estimated;
    OneTick(TEN_GB, Estimated, NOW, LATER[0]);
  }

  lemma PasserIsLeft()
    ensures Advance(NOW, [Placement(LAST, None, Disjoint)], 0, LATER[0], Estimated) ==
      World(100.0, [PASSER], [FIRST, SECOND], 0)
  {
    var a := Placement(LAST, None, Disjoint);
    hide Advance, Estimated, StillQueued;
    EstimatedTimes();
    WhoStays();
    OneSent(NOW, a, 0, LATER[0], Estimated);
    assert [FIRST, SECOND] + [] == [FIRST, SECOND];
  }

  lemma RunnerIsDone()
    ensures Advance(NOW, [], 0, LATER[0], Estimated) == World(100.0, [], [FIRST, SECOND, LAST], 0)
  {
    hide Advance, Estimated, StillQueued;
    EstimatedTimes();
    NobodyLeaves(NOW.queue);
    NoneSent(NOW, 0, LATER[0], Estimated);
    assert NOW.queue + [] == NOW.queue;
  }

  lemma DifferentIds()
    ensures DistinctIds([FIRST, SECOND, LAST]) && DistinctIds([HEAD, SMALL, BRIEF]) && DistinctIds([HEAD, SMALL, LARGE])
  {
    assert "first"[0] == 'f' && "second"[0] == 's' && "last"[0] == 'l';
    assert "head"[0] == 'h' && "small"[0] == 's' && "brief"[0] == 'b' && "large"[0] == 'l';
  }

  lemma EstimatedTimes()
    ensures Estimated("runner") == 100.0 && Estimated("last") == 1000.0 && Kept("runner") == 100.0
      && Kept("brief") == 10.0
  {
    assert "runner"[0] == 'r' && "second"[0] == 's' && "last"[0] == 'l' && "brief"[0] == 'b';
  }

  lemma OneTick(m: Machine, took: string -> real, w: World, tick: Tick)
    ensures Ours(m, took, w, [tick]) == Advance(w, PlanAt(m, w).admitted, PlanAt(m, w).rr, tick, took)
    ensures Strict(m, took, w, [tick]) == Advance(w, FifoAt(m, w), FifoIndexAt(m, w), tick, took)
  {
    hide PlanAt, FifoAt, FifoIndexAt, Advance;
    assert [tick][..0] == [];
  }

  /** One task is in flight and ends, and one is sent. */
  lemma OneSent(w: World, a: Placement, rr: int, tick: Tick, took: string -> real)
    requires |w.tasks| == 1 && tick.refused == {} && tick.now - w.tasks[0].started >= took(w.tasks[0].entry.id)
    ensures Advance(w, [a], rr, tick, took) == World(tick.now,
        if tick.now - w.now < took(a.task.id) then [Task(a.task, a.gpu, w.now)] else [],
        StillQueued(w.queue, [a]) + tick.arrivals, rr)
  {
    var t, u := w.tasks[0], Task(a.task, a.gpu, w.now);
    assert [a][..0] == [] && Sent([a], {}) == [a] && Shipped([a], w.now) == [u];
    assert w.tasks == [] + [t] && w.tasks + [u] == [] + [t] + [u];
    NoneRunning(tick.now, took);
    RunningSnoc([], t, tick.now, took);
    RunningSnoc([] + [t], u, tick.now, took);
    hide StillQueued, StillRunning, Sent, Shipped;
    assert [] + [u] == [u];
  }

  /** One task is in flight and ends, and none is sent. */
  lemma NoneSent(w: World, rr: int, tick: Tick, took: string -> real)
    requires |w.tasks| == 1 && tick.now - w.tasks[0].started >= took(w.tasks[0].entry.id)
    ensures Advance(w, [], rr, tick, took) ==
      World(tick.now, [], StillQueued(w.queue, []) + tick.arrivals, rr)
  {
    var t := w.tasks[0];
    assert Shipped([], w.now) == [] && w.tasks + [] == [] + [t];
    NoneRunning(tick.now, took);
    RunningSnoc([], t, tick.now, took);
    hide StillQueued, StillRunning;
  }

  /** Of three queued tasks the last leaves. */
  lemma ThirdLeaves(a: PendingEntry, b: PendingEntry, c: PendingEntry, start: Placement)
    requires a.id != c.id && b.id != c.id && start.task == c
    ensures StillQueued([a, b, c], [start]) == [a, b]
  {
    var queue, stay, leave := [a, b, c], [a, b], [c];
    assert queue == stay + leave && a in queue && b in queue && start in [start];
    var ids := IdsIn(queue) - StartedIds([start]);
    assert a.id in ids && b.id in ids && c.id !in ids;
    OnlyJoined(stay, leave, ids);
    OnlyAll(stay, ids);
    assert leave[1..] == [] && Only(leave, ids) == [] && stay + [] == stay;
  }

  lemma NobodyLeaves(queue: seq<PendingEntry>)
    ensures StillQueued(queue, []) == queue
  {
    OnlyAll(queue, IdsIn(queue) - StartedIds([]));
  }

  lemma WhoStays()
    ensures StillQueued(NOW.queue, [Placement(LAST, None, Disjoint)]) == [FIRST, SECOND]
    ensures StillQueued(BEFORE.queue, [Placement(BRIEF, Some(1), ShortEnough)]) == [HEAD, SMALL]
  {
    DifferentIds();
    assert NOW.queue[0].id != NOW.queue[2].id && NOW.queue[1].id != NOW.queue[2].id;
    assert BEFORE.queue[0].id != BEFORE.queue[2].id && BEFORE.queue[1].id != BEFORE.queue[2].id;
    hide StillQueued;
    ThirdLeaves(FIRST, SECOND, LAST, Placement(LAST, None, Disjoint));
    ThirdLeaves(HEAD, SMALL, BRIEF, Placement(BRIEF, Some(1), ShortEnough));
  }

  /** What is free leaves room for the head and the second task, but not also for the one that passed. */
  lemma WhatMayStart()
    ensures MayStart(TEN_GB, [], FIRST) && MayStart(TEN_GB, [PASSER], FIRST) && MayStart(TEN_GB, [PASSER], SECOND)
    ensures forall g :: MayStart(TEN_GB, [Task(FIRST, g, 100.0)], SECOND)
    ensures forall g :: !MayStart(TEN_GB, [PASSER, Task(FIRST, g, 100.0)], SECOND)
  {
    var idle := TEN_GB.Idle();
    assert [PASSER][..0] == [] && Committed(idle, []) == idle
      && Committed(idle, [PASSER]) == Pools(Finite(6.1), map[], 1);
    forall g
      ensures MayStart(TEN_GB, [Task(FIRST, g, 100.0)], SECOND)
      ensures !MayStart(TEN_GB, [PASSER, Task(FIRST, g, 100.0)], SECOND)
    {
      var first := Task(FIRST, g, 100.0);
      assert [first][..0] == [] && [PASSER, first][..1] == [PASSER];
      assert Committed(idle, [first]) == Pools(Finite(5.0), map[], 1);
      assert Committed(idle, [PASSER, first]).memory == Finite(6.1 - 5.0);
    }
  }

  lemma NothingLostAtFirst()
    requires FifoAt(TEN_GB, NOW) == []
    ensures NothingLost(TEN_GB, Estimated, NOW, LATER)
  {
    hide PlanAt, FifoAt;
    assert LATER[..0] == [];
  }

  lemma SecondIsLost(ours: World, strict: World)
    requires ours == World(100.0, [PASSER], [FIRST, SECOND], 0) && strict == World(100.0, [], [FIRST, SECOND, LAST], 0)
    requires MayStart(TEN_GB, [], FIRST) && MayStart(TEN_GB, [PASSER], FIRST)
    requires forall g :: MayStart(TEN_GB, [Task(FIRST, g, 100.0)], SECOND)
    requires forall g :: !MayStart(TEN_GB, [PASSER, Task(FIRST, g, 100.0)], SECOND)
    ensures Lost(TEN_GB, ours, strict, SECOND)
  {
    hide FifoAt, PlanAt, MayStart;
    var m := TEN_GB;
    OneStarts(ours);
    OneStarts(strict);
    var mine, theirs := FifoAt(m, ours), FifoAt(m, strict);
    FifoAtGoesInTurn(m, ours);
    FifoAtGoesInTurn(m, strict);
    StartsExactly(m, ours, 1);
    FifoAtIsPrefix(m, strict);
    assert ours.tasks + Shipped(mine[..1], 100.0) == [PASSER, Task(FIRST, mine[0].gpu, 100.0)];
    assert strict.tasks + Shipped(theirs[..1], 100.0) == [Task(FIRST, theirs[0].gpu, 100.0)];
    assert theirs[..|theirs|] == theirs;
    assert theirs[1].task == SECOND;
  }

  /** The head may start, so strict FIFO starts it first. */
  lemma OneStarts(w: World)
    requires w.queue != [] && w.queue[0] == FIRST && w.now == 100.0 && MayStart(TEN_GB, w.tasks, FIRST)
    ensures FifoAt(TEN_GB, w) != [] && FifoAt(TEN_GB, w)[0].task == FIRST
  {
    FifoStartsExactly(TEN_GB, w, FIRST);
  }

  lemma LastPasses()
    ensures PlanAt(TEN_GB, NOW).admitted == [Placement(LAST, None, Disjoint)] && PlanAt(TEN_GB, NOW).rr == 0
    ensures FifoAt(TEN_GB, NOW) == [] && FifoIndexAt(TEN_GB, NOW) == 0
  {
    var m, w := TEN_GB, NOW;
    var cap, st := CapacityOf(m, w), StartAt(m, w);
    assert [RUNNER][..0] == [] && Committed(m.Idle(), [RUNNER]) == Pools(Finite(4.0), map[], 1);
    var running := Running([RUNNER], 0.0);
    assert running == [RunningOf(RUNNER, 0.0)] && running[..0] == [];
    assert !AnyExclusive(running) && st.pools == Pools(Finite(4.0), map[], 1);
    assert AdmitFront(cap, st) == (st, Blocked);
    FrontIsFifo(cap, st);
    assert ReleaseTimes(running) == [100.0];
    assert StateAt(st.pools, [], At(100.0)) == st.pools;
    assert StateAt(st.pools, running, At(100.0)) == Pools(Finite(10.0), map[], 0);
    assert Reservation(cap, FIRST, st) == At(100.0);
    var candidates := st.queue[1..];
    assert candidates == [SECOND, LAST] && candidates[..1] == [SECOND] && [SECOND][..0] == [];
    assert Backfill(cap, st, FIRST, At(100.0), []) == st;
    assert BackfillOne(cap, st, FIRST, At(100.0), SECOND) == st;
    assert Backfill(cap, st, FIRST, At(100.0), [SECOND]) == st;
    assert HeadStillFitsWithHold(cap, st, FIRST, LAST, None, At(100.0));
    assert BackfillOne(cap, st, FIRST, At(100.0), LAST) == Admit(st, LAST, Choice(None, 0), Disjoint);
  }

  // ----- misplaced by one that has come and gone -----

  const TWO_GPUS := Machine(Finite(10.0), map[0 := Finite(16.0), 1 := Finite(8.0)], [0, 1], 4, true)
  const HEAD := PendingEntry("head", 4.5, 0.0, 1.0, Some(100.0), false, Some("h"), false)
  const SMALL := PendingEntry("small", 4.2, 4.0, 1.0, Some(100.0), false, Some("s"), false)
  const BRIEF := PendingEntry("brief", 0.5, 1.0, 1.0, Some(10.0), false, Some("b"), false)
  const LARGE := PendingEntry("large", 0.5, 12.0, 1.0, Some(100.0), false, Some("l"), false)

  const BEFORE := World(0.0, [RUNNER], [HEAD, SMALL, BRIEF], 1)
  const LARGE_COMES: seq<Tick> := [Tick(100.0, {}, [LARGE])]

  function Kept(id: string): real {
    if id == "brief" then 10.0 else 100.0
  }

  /** A brief task passes by rule (b) and is long gone when the head is started; all it leaves behind is
      that the rotation has moved on.  So the small task is put on the large GPU here and on the small
      one under strict FIFO, and the large task no longer fits, although nothing that strict FIFO has
      yet to start is in flight. */
  lemma MisplacedByThePast()
    ensures Sane(BEFORE, LARGE_COMES) && NothingLost(TWO_GPUS, Kept, BEFORE, LARGE_COMES)
    ensures Ours(TWO_GPUS, Kept, BEFORE, LARGE_COMES) == World(100.0, [], [HEAD, SMALL, LARGE], 0)
    ensures Strict(TWO_GPUS, Kept, BEFORE, LARGE_COMES) == World(100.0, [], [HEAD, SMALL, BRIEF, LARGE], 1)
    ensures Lost(TWO_GPUS, Ours(TWO_GPUS, Kept, BEFORE, LARGE_COMES),
                 Strict(TWO_GPUS, Kept, BEFORE, LARGE_COMES), LARGE)
  {
    var m := TWO_GPUS;
    var ours, strict := World(100.0, [], [HEAD, SMALL, LARGE], 0), World(100.0, [], [HEAD, SMALL, BRIEF, LARGE], 1);
    BriefPasses();
    SaneBefore();
    RotationsApart();
    FifoStartsTwo();
    FifoStartsFour();
    hide PlanAt, FifoAt, Sane, Ours, Strict;
    DifferentIds();
    LargeIsLost(ours, strict);
    NothingLostYet(m);
  }

  lemma NothingLostYet(m: Machine)
    requires FifoAt(m, BEFORE) == []
    ensures NothingLost(m, Kept, BEFORE, LARGE_COMES)
  {
    hide PlanAt, FifoAt;
    assert LARGE_COMES[..0] == [];
  }

  lemma LargeIsLost(ours: World, strict: World)
    requires DistinctIds(ours.queue) && |ours.queue| == 3 && ours.queue[2] == LARGE && |FifoAt(TWO_GPUS, ours)| == 2
    requires |FifoAt(TWO_GPUS, strict)| == 4 && FifoAt(TWO_GPUS, strict)[3].task == LARGE
    ensures Lost(TWO_GPUS, ours, strict, LARGE)
  {
    hide FifoAt, PlanAt;
    StartsExactly(TWO_GPUS, ours, 2);
  }

  lemma SaneBefore()
    ensures Sane(BEFORE, LARGE_COMES)
  {
    var all := [RUNNER.entry, HEAD, SMALL, BRIEF, LARGE];
    assert LARGE_COMES[..0] == [] && EntriesOf([RUNNER]) == [RUNNER.entry];
    assert Everyone(BEFORE, LARGE_COMES) == all;
    assert all[0].id == "runner" && all[1].id == "head" && all[2].id == "small" && all[3].id == "brief"
      && all[4].id == "large";
    assert "runner"[0] == 'r' && "head"[0] == 'h' && "small"[0] == 's' && "brief"[0] == 'b' && "large"[0] == 'l';
  }

  lemma RotationsApart()
    requires PlanAt(TWO_GPUS, BEFORE).admitted == [Placement(BRIEF, Some(1), ShortEnough)]
      && PlanAt(TWO_GPUS, BEFORE).rr == 0
    requires FifoAt(TWO_GPUS, BEFORE) == [] && FifoIndexAt(TWO_GPUS, BEFORE) == 1
    ensures Ours(TWO_GPUS, Kept, BEFORE, LARGE_COMES) == World(100.0, [], [HEAD, SMALL, LARGE], 0)
    ensures Strict(TWO_GPUS, Kept, BEFORE, LARGE_COMES) == World(100.0, [], [HEAD, SMALL, BRIEF, LARGE], 1)
  {
    BriefIsDone();
    BriefWaits();
    hide PlanAt, FifoAt, FifoIndexAt, Advance, Kept;
    OneTick(TWO_GPUS, Kept, BEFORE, LARGE_COMES[0]);
  }

  lemma BriefIsDone()
    ensures Advance(BEFORE, [Placement(BRIEF, Some(1), ShortEnough)], 0, LARGE_COMES[0], Kept) ==
      World(100.0, [], [HEAD, SMALL, LARGE], 0)
  {
    var a := Placement(BRIEF, Some(1), ShortEnough);
    hide Advance, Kept, StillQueued;
    EstimatedTimes();
    WhoStays();
    OneSent(BEFORE, a, 0, LARGE_COMES[0], Kept);
    assert [HEAD, SMALL] + [LARGE] == [HEAD, SMALL, LARGE];
  }

  lemma BriefWaits()
    ensures Advance(BEFORE, [], 1, LARGE_COMES[0], Kept) == World(100.0, [], [HEAD, SMALL, BRIEF, LARGE], 1)
  {
    hide Advance, Kept, StillQueued;
    EstimatedTimes();
    NobodyLeaves(BEFORE.queue);
    NoneSent(BEFORE, 1, LARGE_COMES[0], Kept);
    assert BEFORE.queue + [LARGE] == [HEAD, SMALL, BRIEF, LARGE];
  }

  /** Here the small task goes to GPU 0 and leaves exactly 12 GB there, which is not more than 12. */
  lemma FifoStartsTwo()
    ensures |FifoAt(TWO_GPUS, World(100.0, [], [HEAD, SMALL, LARGE], 0))| == 2
  {
    var m, w := TWO_GPUS, World(100.0, [], [HEAD, SMALL, LARGE], 0);
    var cap := CapacityOf(m, w);
    var p := Pools(Finite(5.5), m.gpu, 1);
    var q := Pools(Finite(5.5 - 4.2), map[0 := Finite(12.0), 1 := Finite(8.0)], 2);
    NothingRuns();
    TwoOptions(m.gpu, 4.0, 0);
    assert cap.gpuOrder[0] == 0 && HasRoom(m.gpu, cap.gpuOrder[0], 4.0);
    assert Take(p, 4.2, 4.0, Some(0)) == q;
    assert w.queue[1..] == [SMALL, LARGE] && [SMALL, LARGE][1..] == [LARGE];
    var held := {} + IdentityOf(HEAD);
    assert !Fits(cap, LARGE, q);
    assert Fifo(cap, [LARGE], q, held + IdentityOf(SMALL), 1) == [];
    assert |Fifo(cap, [SMALL, LARGE], p, held, 0)| == 1;
    assert Take(m.Idle(), 4.5, 0.0, None) == p;
  }

  lemma NothingRuns()
    ensures Running([], 100.0) == [] && HeldBy([]) == {} && Committed(TWO_GPUS.Idle(), []) == TWO_GPUS.Idle()
  {
  }

  /** The large task fits on GPU 0 beside the brief one. */
  lemma BriefThenLarge(cap: Capacity, held: set<string>)
    requires cap.gpuOrder == [0, 1] && cap.maxWorkers == 4
    ensures var q := Pools(Finite(1.3), map[0 := Finite(16.0), 1 := Finite(4.0)], 2);
      var starts := Fifo(cap, [BRIEF, LARGE], q, held, 0);
      |starts| == 2 && starts[1].task == LARGE
  {
    var q := Pools(Finite(1.3), map[0 := Finite(16.0), 1 := Finite(4.0)], 2);
    var r := Pools(Finite(0.8), map[0 := Finite(15.0), 1 := Finite(4.0)], 3);
    TwoOptions(q.gpu, 1.0, 0);
    assert cap.gpuOrder[0] == 0 && HasRoom(q.gpu, cap.gpuOrder[0], 1.0) && HasRoom(r.gpu, cap.gpuOrder[0], 12.0);
    assert Take(q, 0.5, 1.0, Some(0)) == r && [BRIEF, LARGE][1..] == [LARGE];
    var last := Fifo(cap, [LARGE], r, held + IdentityOf(BRIEF), 1);
    assert last != [] && last[0].task == LARGE;
    FifoIsPrefix(cap, [LARGE], r, held + IdentityOf(BRIEF), 1);
    assert Fifo(cap, [BRIEF, LARGE], q, held, 0) == [Placement(BRIEF, Some(0), Front)] + last;
  }

  /** Under strict FIFO the small task goes to GPU 1, and all four start. */
  lemma FifoStartsFour()
    ensures var starts := FifoAt(TWO_GPUS, World(100.0, [], [HEAD, SMALL, BRIEF, LARGE], 1));
      |starts| == 4 && starts[3].task == LARGE
  {
    var m, w := TWO_GPUS, World(100.0, [], [HEAD, SMALL, BRIEF, LARGE], 1);
    var cap := CapacityOf(m, w);
    var p := Pools(Finite(5.5), m.gpu, 1);
    var q := Pools(Finite(1.3), map[0 := Finite(16.0), 1 := Finite(4.0)], 2);
    var held := {} + IdentityOf(HEAD);
    NothingRuns();
    BriefThenLarge(cap, held + IdentityOf(SMALL));
    TwoOptions(m.gpu, 4.0, 1);
    assert cap.gpuOrder[1] == 1 && HasRoom(m.gpu, cap.gpuOrder[1], 4.0);
    assert Take(m.Idle(), 4.5, 0.0, None) == p && Take(p, 4.2, 4.0, Some(1)) == q;
    assert w.queue[1..] == [SMALL, BRIEF, LARGE] && [SMALL, BRIEF, LARGE][1..] == [BRIEF, LARGE];
    var three := Fifo(cap, [BRIEF, LARGE], q, held + IdentityOf(SMALL), 0);
    var two := Fifo(cap, [SMALL, BRIEF, LARGE], p, held, 1);
    assert two == [Placement(SMALL, Some(1), Front)] + three;
    assert FifoAt(m, w) == [Placement(HEAD, None, Front)] + two;
  }

  lemma BriefPasses()
    ensures PlanAt(TWO_GPUS, BEFORE).admitted == [Placement(BRIEF, Some(1), ShortEnough)]
      && PlanAt(TWO_GPUS, BEFORE).rr == 0
    ensures FifoAt(TWO_GPUS, BEFORE) == [] && FifoIndexAt(TWO_GPUS, BEFORE) == 1
  {
    var m, w := TWO_GPUS, BEFORE;
    var cap, st := CapacityOf(m, w), StartAt(m, w);
    assert [RUNNER][..0] == [] && Committed(m.Idle(), [RUNNER]) == Pools(Finite(4.0), m.gpu, 1);
    var running := Running([RUNNER], 0.0);
    assert running == [RunningOf(RUNNER, 0.0)] && running[..0] == [];
    assert !AnyExclusive(running) && st.pools == Pools(Finite(4.0), m.gpu, 1);
    assert AdmitFront(cap, st) == (st, Blocked);
    FrontIsFifo(cap, st);
    assert ReleaseTimes(running) == [100.0];
    assert StateAt(st.pools, [], At(100.0)) == st.pools;
    assert StateAt(st.pools, running, At(100.0)) == Pools(Finite(10.0), m.gpu, 0);
    assert Reservation(cap, HEAD, st) == At(100.0);
    var candidates := st.queue[1..];
    assert candidates == [SMALL, BRIEF] && candidates[..1] == [SMALL] && [SMALL][..0] == [];
    assert Backfill(cap, st, HEAD, At(100.0), []) == st;
    assert BackfillOne(cap, st, HEAD, At(100.0), SMALL) == st;
    assert Backfill(cap, st, HEAD, At(100.0), [SMALL]) == st;
    TwoOptions(st.pools.gpu, 1.0, 1);
    assert BackfillOne(cap, st, HEAD, At(100.0), BRIEF) == Admit(st, BRIEF, Choice(Some(1), 0), ShortEnough);
  }

  /** The first of two GPUs with room, in rotation order. */
  lemma TwoOptions(gpu: map<int, Amount>, vram: real, rr: int)
    requires rr == 0 || rr == 1
    ensures var options := GpuOptions([0, 1], gpu, vram, rr);
      if HasRoom(gpu, rr, vram) then options != [] && options[0] == Choice(Some(rr), 1 - rr)
      else if HasRoom(gpu, 1 - rr, vram) then options == [Choice(Some(1 - rr), rr)]
      else options == []
  {
    var order := [0, 1];
    assert order[rr] == rr && order[1 - rr] == 1 - rr;
    assert (rr + 0) % 2 == rr && (rr + 1) % 2 == 1 - rr && (1 - rr + 1) % 2 == rr;
    var one := OptionsUpTo(order, gpu, vram, rr, 1);
    assert one == if HasRoom(gpu, rr, vram) then [Choice(Some(rr), 1 - rr)] else [] by {
      assert OptionsUpTo(order, gpu, vram, rr, 0) == [];
    }
    var other := if HasRoom(gpu, 1 - rr, vram) then [Choice(Some(1 - rr), rr)] else [];
    assert GpuOptions(order, gpu, vram, rr) == one + other;
  }
}
