/** Why updating the tables in place, in the program's order, comes to the same as the
    functions of `ExecutorState`. */
module ExecutorRefinement {
  import opened Quantities
  import opened Stores
  import opened Admission
  import opened Planning
  import opened Plans
  import opened ExecutorState
  import opened ExecutorInvariants
  import opened ExecutorDispatch
  import opened ExecutorRuns
  import opened ExecutorProgress
  import opened Draining

  /** Some queued tasks expelled, with `queue` still to do. */
  function Expelling(s: State, gone: seq<Work>, queue: seq<Work>): State {
    Expel(s, Ids(gone)).(pending := queue)
  }

  lemma NothingExpelled(s: State)
    ensures Expelling(s, [], s.pending) == s
  {
    var x := Expelling(s, [], s.pending);
    assert x.futures == s.futures && x.log == s.log && x.finished == s.finished;
  }

  lemma FailOneMore(futures: map<string, Future>, log: map<string, Log>, ids: set<string>, id: string)
    ensures var f, l := FailAll(futures, ids), LogFailures(log, futures, ids);
      var unsettled := id in f && !Done(f[id]);
      && FailAll(futures, ids + {id}) == (if unsettled then f[id := Finished(false)] else f)
      && LogFailures(log, futures, ids + {id}) == (if unsettled && id in l then l[id := Settled(l[id])] else l)
  {
  }

  lemma OneMoreGone(gone: seq<Work>, queue: seq<Work>)
    requires queue != []
    ensures gone + [queue[0]] + queue[1..] == gone + queue && queue[0] in gone + queue
    ensures forall v :: v in gone ==> v in gone + queue
  {
  }

  /** Settling the next task is expelling one more. */
  lemma ExpelOneMore(s: State, gone: seq<Work>, w: Work, queue: seq<Work>)
    requires w in s.pending && (forall v :: v in gone ==> v in s.pending)
    ensures var x := Expelling(s, gone, queue);
      var y := Settle(x, w.id, false);
      Expelling(s, gone + [w], queue) == y.(finished := y.finished + {w.id})
  {
    IdsAppend(gone, [w]);
    assert Ids([w]) == {w.id};
    assert Ids(gone) * Ids(s.pending) == Ids(gone);
    assert Ids(gone + [w]) * Ids(s.pending) == Ids(gone) + {w.id};
    FailOneMore(s.futures, s.log, Ids(gone), w.id);
    hide FailAll, LogFailures, Ids, Without;
    assert s.finished + (Ids(gone) + {w.id}) == (s.finished + Ids(gone)) + {w.id};
  }

  lemma {:induction false} WithoutAll(ws: seq<Work>, ids: set<string>)
    requires Ids(ws) <= ids
    ensures Without(ws, ids) == []
  {
    if ws != [] {
      var pre, w := ws[..|ws| - 1], ws[|ws| - 1];
      assert ws == pre + [w] && w.id in Ids(ws);
      assert Ids(pre) <= Ids(ws);
      WithoutAll(pre, ids);
    }
  }

  lemma AllExpelled(s: State)
    ensures Expelling(s, s.pending, []) == FailPending(s)
  {
    WithoutAll(s.pending, Ids(s.pending));
    assert Ids(s.pending) * Ids(s.pending) == Ids(s.pending);
  }

  lemma NothingSwept(ws: seq<Work>, gone: set<string>)
    ensures Without(ws[..0], gone) == [] && Ids([]) == gone * Ids(ws[..0])
  {
  }

  lemma SweepStep(cfg: Config, snapshot: Option<Snapshot>, ws: seq<Work>, i: int, rejects: seq<Work>)
    requires NoDup(ws) && 0 <= i < |ws| && Ids(rejects) == InfeasibleIds(cfg, snapshot, ws) * Ids(ws[..i])
    ensures var gone, rejected := InfeasibleIds(cfg, snapshot, ws), Infeasible(cfg, ws[i].estimate, snapshot);
      && Without(ws[..i + 1], gone) == Without(ws[..i], gone) + (if rejected then [] else [ws[i]])
      && Ids(if rejected then rejects + [ws[i]] else rejects) == gone * Ids(ws[..i + 1])
  {
    hide Infeasible;
    var gone := InfeasibleIds(cfg, snapshot, ws);
    if ws[i].id in gone {
      var v :| v in ws && Infeasible(cfg, v.estimate, snapshot) && v.id == ws[i].id;
      SameIdSameWork(ws, v, ws[i]);
    }
    assert ws[..i + 1] == ws[..i] + [ws[i]];
    assert ws[..i + 1][..i] == ws[..i];
    IdsAppend(ws[..i], [ws[i]]);
    IdsAppend(rejects, [ws[i]]);
    assert Ids([ws[i]]) == {ws[i].id};
  }

  lemma SweptIsExpelled(s: State, rejects: seq<Work>, gone: set<string>)
    requires Ids(rejects) == gone * Ids(s.pending)
    ensures Expelling(s, rejects, s.pending).(pending := Without(s.pending, gone)) == Expel(s, gone)
  {
    WithoutElsewhere(s.pending, gone, gone * Ids(s.pending));
    assert Ids(rejects) * Ids(s.pending) == gone * Ids(s.pending);
  }

  /** Only the ids that occur matter. */
  lemma {:induction false} WithoutElsewhere(ws: seq<Work>, ids: set<string>, same: set<string>)
    requires forall w :: w in ws ==> (w.id in ids <==> w.id in same)
    ensures Without(ws, ids) == Without(ws, same)
  {
    if ws != [] {
      assert ws == ws[..|ws| - 1] + [ws[|ws| - 1]];
      WithoutElsewhere(ws[..|ws| - 1], ids, same);
    }
  }

  lemma SameTable(a: map<int, Amount>, b: map<int, Amount>)
    requires forall g :: g in a <==> g in b
    requires forall g :: g in a ==> a[g] == b[g]
    ensures a == b
  {
    assert (forall g :: g in a <==> g in b) && (forall g :: g in a ==> a[g] == b[g]) ==> a == b;
  }

  lemma HandshakeIgnoresQueue(s: State, queue: seq<Work>, w: Work)
    ensures Handshake(s.(pending := queue), w) == Handshake(s, w).(pending := queue)
    ensures w.runningNotified ==> Handshake(s, w) == s
    ensures !w.runningNotified && w.id in s.futures && (s.futures[w.id].Queued? || s.futures[w.id].Cancelled?) ==>
      var h := Handshake(s, w);
      && w.id in h.futures && h.futures[w.id] == (if s.futures[w.id].Queued? then Running else CancelledNotified)
      && h.finished == s.finished && h.pending == s.pending
  {
  }

  lemma SendIgnoresQueue(s: State, queue: seq<Work>, w: Work, gpu: Option<int>, k: int, now: real)
    ensures Send(s.(pending := queue), w, gpu, k, now) == Send(s, w, gpu, k, now).(pending := Without(queue, {w.id}))
  {
    hide Without, FindWorker, Replace;
  }

  lemma SpawningIgnoresQueue(s: State, queue: seq<Work>, pin: Option<int>, victim: Worker)
    ensures Spawn(s.(pending := queue), pin) == Spawn(s, pin).(pending := queue)
    ensures Retire(s.(pending := queue), victim) == Retire(s, victim).(pending := queue)
  {
    hide WithoutWorkers;
  }

  lemma AcquireIgnoresQueue(cfg: Config, s: State, queue: seq<Work>, pin: Option<int>, alive: set<int>)
    ensures var r := Acquire(cfg, s, pin, alive);
      Acquire(cfg, s.(pending := queue), pin, alive) ==
        if r == None then None else Some((r.value.0, r.value.1.(pending := queue)))
  {
    hide FirstIdle, Spawn, Retire;
    var victim := FirstIdle(s.workers, alive, true, None);
    if victim.Some? {
      SpawningIgnoresQueue(s, queue, pin, victim.value);
      SpawningIgnoresQueue(Retire(s, victim.value), queue, pin, victim.value);
    } else {
      SpawningIgnoresQueue(s, queue, pin, Worker(0, None, None, false, false, 0));
    }
  }

  lemma {:induction false} FindElsewhere(ws: seq<Work>, ids: set<string>, id: string)
    requires id !in ids
    ensures Find(Without(ws, ids), id) == Find(ws, id)
  {
    if ws != [] {
      var pre, w := ws[..|ws| - 1], ws[|ws| - 1];
      FindElsewhere(pre, ids, id);
      FindSnoc(pre, w, id);
      FindSnoc(Without(pre, ids), w, id);
      assert ws == pre + [w];
      assert w.id in ids ==> Without(ws, ids) == Without(pre, ids);
    }
  }

  lemma {:induction false} FindSnoc(ws: seq<Work>, w: Work, id: string)
    ensures Find(ws + [w], id) == if Find(ws, id).Some? then Find(ws, id) else if w.id == id then Some(w) else None
  {
    if ws != [] {
      assert (ws + [w])[1..] == ws[1..] + [w];
      FindSnoc(ws[1..], w, id);
    }
  }

  lemma {:induction false} WithoutTwice(ws: seq<Work>, a: set<string>, b: set<string>)
    ensures Without(Without(ws, a), b) == Without(ws, a + b)
  {
    if ws != [] {
      hide Without;
      var pre, w := ws[..|ws| - 1], ws[|ws| - 1];
      assert ws == pre + [w];
      WithoutTwice(pre, a, b);
      WithoutTwiceSnoc(pre, w, a, b);
    }
  }

  lemma WithoutTwiceSnoc(pre: seq<Work>, w: Work, a: set<string>, b: set<string>)
    requires Without(Without(pre, a), b) == Without(pre, a + b)
    ensures Without(Without(pre + [w], a), b) == Without(pre + [w], a + b)
  {
    hide Without;
    WithoutSnoc(pre, w, a);
    WithoutSnoc(pre, w, a + b);
    WithoutSnoc(Without(pre, a), w, b);
  }

  lemma StillDistinct(cfg: Config, s: State, now: real)
    requires Inv(cfg, s)
    ensures NoDup(ReestimateAll(cfg, s.store, now, s.pending))
  {
    SameOrderSameIds(s.pending, ReestimateAll(cfg, s.store, now, s.pending));
  }

  /** No task is planned twice. */
  lemma PlannedOnce(cfg: Config, s: State, env: Env)
    requires Inv(cfg, s)
    ensures var decisions := Decisions(PlanOf(cfg, s, env).admitted);
      forall i, j :: 0 <= i < j < |decisions| ==> decisions[i].pendingId != decisions[j].pendingId
  {
    hide TasksOk, WorkersOk;
    var queue, running := Entries(s.pending), RunningEntries(s.inFlight, env.now);
    var cap := CapacityFor(cfg, s, env.snapshot);
    var admitted := PlanOf(cfg, s, env).admitted;
    if AnyExclusive(running) {
      assert admitted == [];
    } else {
      var at := PlanRefinesFifo(queue, running, cap);
      forall i, j | 0 <= i < j < |admitted| ensures admitted[i].task.id != admitted[j].task.id {
        assert at[i] < at[j];
        assert s.pending[at[i]].id != s.pending[at[j]].id;
      }
    }
  }

  lemma LostAreDead(cfg: Config, s: State, gone: set<int>)
    requires Inv(cfg, s)
    ensures var lost := PickWorkers(s.workers, gone, true);
      NoDupWorkers(lost) && forall k :: k in lost ==> k in CheckWorkers(s, gone).dead
  {
    PickKeepsDistinct(s.workers, gone, true);
  }

  lemma {:induction false} ReapedLeaveTheDead(cfg: Config, s: State, reaped: seq<Worker>, remains: map<int, Remains>)
    ensures ReapAll(cfg, s, reaped, remains).dead == s.dead
  {
    hide Drain;
    if reaped != [] {
      var k := reaped[|reaped| - 1];
      ReapedLeaveTheDead(cfg, s, reaped[..|reaped| - 1], remains);
      DrainLeavesTheDead(cfg, ReapAll(cfg, s, reaped[..|reaped| - 1], remains), RemainsOf(remains, k).messages);
    }
  }

  lemma {:induction false} PickNothing(ks: seq<Worker>, ids: set<int>)
    requires forall k :: k in ks ==> k.id !in ids
    ensures WithoutWorkers(ks, ids) == ks
  {
    if ks != [] {
      PickNothing(ks[..|ks| - 1], ids);
      assert ks == ks[..|ks| - 1] + [ks[|ks| - 1]];
    }
  }

  lemma {:induction false} WithoutAround(a: seq<Worker>, k: Worker, b: seq<Worker>)
    requires forall j :: j in a || j in b ==> j.id != k.id
    ensures WithoutWorkers(a + [k] + b, {k.id}) == a + b
  {
    if b == [] {
      PickNothing(a, {k.id});
      assert a + [k] + b == a + [k] && (a + [k])[..|a|] == a && a + b == a;
    } else {
      var pre, last := b[..|b| - 1], b[|b| - 1];
      WithoutAround(a, k, pre);
      var all := a + [k] + b;
      assert all[..|all| - 1] == a + [k] + pre && all[|all| - 1] == last && last in b;
      assert a + b == (a + pre) + [last];
    }
  }

  lemma StartCollecting(all: seq<Worker>, gone: set<int>)
    ensures PickWorkers(all[..0], gone, true) == [] && WithoutWorkers(all[..0], gone) + all[0..] == all
  {
  }

  lemma CollectStep(all: seq<Worker>, gone: set<int>, i: int)
    requires 0 <= i < |all|
    ensures PickWorkers(all[..i + 1], gone, true) ==
      PickWorkers(all[..i], gone, true) + (if all[i].id in gone then [all[i]] else [])
    ensures all[i].id in gone ==> WithoutWorkers(all[..i + 1], gone) == WithoutWorkers(all[..i], gone)
    ensures all[i].id !in gone ==>
      WithoutWorkers(all[..i + 1], gone) + all[i + 1..] == WithoutWorkers(all[..i], gone) + all[i..]
  {
    assert all[..i + 1][..i] == all[..i];
    if all[i].id !in gone {
      assert all[i..] == [all[i]] + all[i + 1..];
      assert WithoutWorkers(all[..i + 1], gone) == WithoutWorkers(all[..i], gone) + [all[i]];
    }
  }

  /** Popping a worker from the pool, where the earlier ones have been filtered already. */
  lemma DropOne(all: seq<Worker>, gone: set<int>, i: int)
    requires NoDupWorkers(all) && 0 <= i < |all| && all[i].id in gone
    ensures WithoutWorkers(WithoutWorkers(all[..i], gone) + all[i..], {all[i].id})
         == WithoutWorkers(all[..i], gone) + all[i + 1..]
  {
    var a, k, b := WithoutWorkers(all[..i], gone), all[i], all[i + 1..];
    assert a + all[i..] == a + [k] + b;
    forall j | j in b ensures j.id != k.id {
      var m :| 0 <= m < |b| && b[m] == j;
      assert all[i + 1 + m] == j;
    }
    WithoutAround(a, k, b);
  }

  lemma NothingLost(cfg: Config, s: State, id: string, exitCode: Option<int>)
    requires id in s.held ==> !s.held[id].handler.ByCrash?
    ensures FinishLost(cfg, s, id, exitCode) == s
  {
  }

  /** A timed-out task is in its handler's hands, to be ignored by results if its worker lives. */
  lemma TimeoutHolds(cfg: Config, s: State, id: string)
    ensures var found := Find(s.inFlight, id);
      found.Some? && !(id in s.futures && Done(s.futures[id])) ==>
        var w := found.value;
        TakeTimeout(cfg, s, id).held
        == s.held[id := Held(if cfg.killOnTimeout && w.worker.Some? then w else w.(resultIgnored := true), ByTimeout)]
  {
    hide FindWorker, Popped, Poison, PutBack, Find, OnlyPoolChanges;
    var found := Find(s.inFlight, id);
    if found.Some? {
      var w := found.value;
      var held := Held(if cfg.killOnTimeout && w.worker.Some? then w else w.(resultIgnored := true), ByTimeout);
      var popped := Popped(s, w, held);
      PoppedHolds(s, w, held);
      var worker := if w.worker == None then None else FindWorker(s.workers, w.worker.value);
      if worker.Some? {
        PoolStepsKeepTasks(popped, worker.value);
        OnlyPoolMeansSameTasks(popped, Poison(popped, worker.value));
        PoolStepsKeepTasks(popped, worker.value.(current := None));
        OnlyPoolMeansSameTasks(popped, PutBack(popped, worker.value.(current := None)));
      }
    }
  }

  lemma PoppedHolds(s: State, w: Work, held: Held)
    ensures Popped(s, w, held).held == s.held[w.id := held]
  {
  }

  lemma NoTimeout(cfg: Config, s: State, id: string)
    requires Find(s.inFlight, id) == None || (id in s.futures && Done(s.futures[id]))
    ensures TakeTimeout(cfg, s, id) == s
  {
  }

  lemma SamePoolSameSteps(s: State, t: State, k: Worker)
    requires t.workers == s.workers && t.retiring == s.retiring
    ensures Retire(t, k).workers == Retire(s, k).workers && Retire(t, k).retiring == Retire(s, k).retiring
    ensures PutBack(t, k).workers == PutBack(s, k).workers && PutBack(t, k).retiring == PutBack(s, k).retiring
  {
  }

  lemma SamePoolSameFreeing(cfg: Config, s: State, t: State, id: string, workerId: int)
    requires t.workers == s.workers && t.retiring == s.retiring
    ensures var f, g := FreeWorker(cfg, s, id, workerId), FreeWorker(cfg, t, id, workerId);
      g.workers == f.workers && g.retiring == f.retiring
  {
    hide FindWorker, Retire, PutBack, ShouldRecycle;
    var worker := FindWorker(s.workers, workerId);
    if worker.Some? && worker.value.current == Some(id) {
      SamePoolSameSteps(s, t, worker.value.(current := None, tasksCompleted := worker.value.tasksCompleted + 1));
    }
  }

  /** Freeing the worker first and then taking the task out comes to the same. */
  lemma FreeingCommutes(cfg: Config, s: State, id: string, workerId: int)
    requires Inv(cfg, s)
    ensures var f := FreeWorker(cfg, s, id, workerId);
      && f.inFlight == s.inFlight && f.held == s.held
      && TakeResult(cfg, s, id, workerId) ==
         match Find(s.inFlight, id)
         case None => f
         case Some(w) => f.(inFlight := Without(s.inFlight, {id}), held := s.held[id := Held(w, ByResult)])
  {
    hide Inv, SameTasks, Without, FreeWorker;
    var found := Find(s.inFlight, id);
    FreeWorkerKeepsTasks(cfg, s, id, workerId);
    if found.Some? {
      NeverIgnored(cfg, s, found.value);
      var popped := Popped(s, found.value, Held(found.value, ByResult));
      FreeWorkerKeepsTasks(cfg, popped, id, workerId);
      SamePoolSameFreeing(cfg, s, popped, id, workerId);
    }
  }
}
