/** What every step of every thread keeps. */
module ExecutorInvariants {
  import opened Quantities
  import opened Profiles
  import opened Stores
  import opened Accounting
  import opened Admission
  import opened Planning
  import opened ExecutorState

  // ----- conservation -----

  /** Every submitted task is in exactly one place: queued once, in flight once, held by one
      handler, finished, or dropped. */
  ghost predicate Places(s: State) {
    && NoDup(s.pending) && NoDup(s.inFlight)
    && Ids(s.pending) !! Ids(s.inFlight) !! s.held.Keys !! s.finished !! s.dropped
    && Ids(s.pending) + Ids(s.inFlight) + s.held.Keys + s.finished + s.dropped == s.futures.Keys
    && s.log.Keys == s.futures.Keys
    && (forall id :: id in s.held ==> s.held[id].work.id == id)
  }

  // ----- tasks, futures and history -----

  /** `x` doubled `k` times. */
  function Doubled(x: real, k: nat): real {
    if k == 0 then x else 2.0 * Doubled(x, k - 1)
  }

  ghost predicate SaneEstimate(e: Estimate) {
    e.memory >= 0.1 && e.vram >= 0.0 && e.cpu >= 0.1
  }

  /** Sizes and retries: a task re-queued k times is exclusive, of unknown duration, carries 2^k
      times the estimate it was first dispatched with, and has been dispatched k times, or k + 1
      if `sent`. */
  ghost predicate Accounted(cfg: Config, w: Work, l: Log, sent: bool) {
    && SaneEstimate(w.estimate) && w.observedMemory >= 0.0 && w.observedVram >= 0.0
    && w.retries <= cfg.maxRetries
    && l.dispatches == w.retries + (if sent then 1 else 0)
    && (w.exclusive <==> w.retries > 0)
    && (w.retries > 0 ==> w.estimate.duration == None && w.estimate.cpu >= 1.0)
    && (l.first.Some? <==> l.dispatches > 0)
    && (l.first.Some? ==>
          && SaneEstimate(l.first.value)
          && w.estimate.memory == Doubled(l.first.value.memory, w.retries)
          && w.estimate.vram == Doubled(l.first.value.vram, w.retries))
  }

  /** A queued task has had no handshake and can be cancelled, or is being retried. */
  ghost predicate QueuedTask(cfg: Config, w: Work, f: Future, l: Log) {
    && Accounted(cfg, w, l, false) && l.settlements == 0 && !w.resultIgnored
    && (w.runningNotified <==> w.retries > 0)
    && (if w.runningNotified then f.Running? && l.handshakes == 1
        else (f.Queued? || f.Cancelled?) && l.handshakes == 0)
  }

  /** A task that has been sent and not settled: its future is running. */
  ghost predicate SentTask(cfg: Config, w: Work, f: Future, l: Log) {
    && Accounted(cfg, w, l, true) && l.settlements == 0
    && w.runningNotified && f.Running? && l.handshakes == 1 && w.startedAt.Some?
  }

  ghost predicate FinishedTask(cfg: Config, f: Future, l: Log) {
    Done(f) && l.handshakes <= 1 && l.settlements <= 1 && l.dispatches <= cfg.maxRetries + 1
  }

  ghost predicate DroppedTask(cfg: Config, f: Future, l: Log) {
    f.Running? && l.handshakes == 1 && l.settlements == 0 && l.dispatches <= cfg.maxRetries + 1
  }

  /** The task `id`, wherever it is, has the future and the history of that place. */
  ghost predicate TaskOk(cfg: Config, s: State, id: string)
    requires id in s.futures && id in s.log
  {
    var f, l := s.futures[id], s.log[id];
    && (forall w :: w in s.pending && w.id == id ==> QueuedTask(cfg, w, f, l))
    && (forall w :: w in s.inFlight && w.id == id ==> SentTask(cfg, w, f, l) && !w.resultIgnored)
    && (id in s.held ==> SentTask(cfg, s.held[id].work, f, l))
    && (id in s.finished ==> FinishedTask(cfg, f, l))
    && (id in s.dropped ==> DroppedTask(cfg, f, l))
  }

  ghost predicate TasksOk(cfg: Config, s: State)
    requires Places(s)
  {
    !s.broken && forall id :: id in s.futures ==> TaskOk(cfg, s, id)
  }

  /** A task that did not move and whose future and history did not change is still right. */
  ghost predicate Untouched(s: State, s': State, id: string)
    requires id in s'.futures && id in s'.log
  {
    && id in s.futures && id in s.log && s'.futures[id] == s.futures[id] && s'.log[id] == s.log[id]
    && (forall w :: w in s'.pending && w.id == id ==> w in s.pending)
    && (forall w :: w in s'.inFlight && w.id == id ==> w in s.inFlight)
    && (id in s'.held ==> id in s.held && s'.held[id].work == s.held[id].work)
    && (id in s'.finished ==> id in s.finished)
    && (id in s'.dropped ==> id in s.dropped)
  }

  lemma TasksFrame(cfg: Config, s: State, s': State)
    requires Places(s) && Places(s') && TasksOk(cfg, s) && !s'.broken
    requires forall id :: id in s'.futures ==> Untouched(s, s', id) || TaskOk(cfg, s', id)
    ensures TasksOk(cfg, s')
  {
    forall id | id in s'.futures ensures TaskOk(cfg, s', id) {
      if Untouched(s, s', id) {
        assert TaskOk(cfg, s, id);
      }
    }
  }

  // A task is in one place only, so being right for that place is being right.

  lemma QueuedSuffices(cfg: Config, s: State, w: Work)
    requires Places(s) && w in s.pending && w.id in s.futures && QueuedTask(cfg, w, s.futures[w.id], s.log[w.id])
    ensures TaskOk(cfg, s, w.id)
  {
    assert w.id in Ids(s.pending);
    forall v | v in s.inFlight ensures v.id != w.id { assert v.id in Ids(s.inFlight); }
    forall v | v in s.pending && v.id == w.id ensures v == w { SameIdSameWork(s.pending, v, w); }
  }

  lemma SentSuffices(cfg: Config, s: State, w: Work)
    requires Places(s) && w in s.inFlight && w.id in s.futures && SentTask(cfg, w, s.futures[w.id], s.log[w.id])
    requires !w.resultIgnored
    ensures TaskOk(cfg, s, w.id)
  {
    assert w.id in Ids(s.inFlight);
    forall v | v in s.pending ensures v.id != w.id { assert v.id in Ids(s.pending); }
    forall v | v in s.inFlight && v.id == w.id ensures v == w { SameIdSameWork(s.inFlight, v, w); }
  }

  lemma ElsewhereSuffices(cfg: Config, s: State, id: string)
    requires Places(s) && id in s.futures
    requires id in s.held || id in s.finished || id in s.dropped
    requires id in s.held ==> SentTask(cfg, s.held[id].work, s.futures[id], s.log[id])
    requires id in s.finished ==> FinishedTask(cfg, s.futures[id], s.log[id])
    requires id in s.dropped ==> DroppedTask(cfg, s.futures[id], s.log[id])
    ensures TaskOk(cfg, s, id)
  {
    forall v | v in s.pending ensures v.id != id { assert v.id in Ids(s.pending); }
    forall v | v in s.inFlight ensures v.id != id { assert v.id in Ids(s.inFlight); }
  }

  // ----- workers -----

  /** The workers a task in flight may be on: the pool, and the dead being handled. */
  function Carriers(s: State): seq<Worker> {
    s.workers + s.dead
  }

  /** A carrier's result queue is readable, and its current task is never queued, never awaiting
      a crash retry, and if in flight it is in flight on this very worker. */
  ghost predicate CurrentOk(s: State, k: Worker) {
    && !k.poisoned
    && (k.current.Some? ==>
          && k.current.value in s.futures
          && k.current.value !in Ids(s.pending)
          && (k.current.value in s.held ==> !s.held[k.current.value].handler.ByCrash?)
          && (forall w :: w in s.inFlight && w.id == k.current.value ==> w.worker == Some(k.id)))
  }

  /** Worker and task name each other, and the task is on the GPU its worker is pinned to. */
  predicate On(k: Worker, w: Work) {
    w.worker == Some(k.id) && k.current == Some(w.id) && k.pinned == w.gpu
  }

  ghost predicate Carried(s: State, w: Work) {
    exists k :: k in Carriers(s) && On(k, w)
  }

  ghost predicate WorkersOk(cfg: Config, s: State) {
    && NoDupWorkers(s.workers) && NoDupWorkers(s.dead)
    && WorkerIds(s.workers) !! WorkerIds(s.dead) !! WorkerIds(s.retiring)
    && (forall k :: k in s.workers || k in s.dead || k in s.retiring ==> k.id < s.nextWorker)
    && (forall k :: k in s.retiring ==> k.current == None)
    && (forall k :: k in Carriers(s) ==> CurrentOk(s, k) && (k.stopped ==> s.stopping))
    && (forall w :: w in s.inFlight ==> Carried(s, w))
    && |s.workers| <= cfg.maxWorkers
    && (s.dropped != {} ==> s.stopping)
  }

  ghost predicate Inv(cfg: Config, s: State) {
    Places(s) && TasksOk(cfg, s) && WorkersOk(cfg, s)
  }

  lemma InitiallyInv(cfg: Config)
    requires cfg.maxWorkers >= 1
    ensures Inv(cfg, INITIAL)
  {
  }

  // ----- lemmas about the tables -----

  lemma WithoutSnoc(ws: seq<Work>, w: Work, ids: set<string>)
    ensures w.id in ids ==> Without(ws + [w], ids) == Without(ws, ids)
    ensures w.id !in ids ==> Without(ws + [w], ids) == Without(ws, ids) + [w]
  {
    assert (ws + [w])[..|ws|] == ws;
  }

  lemma {:induction false} WithoutKeepsDistinct(ws: seq<Work>, ids: set<string>)
    requires NoDup(ws)
    ensures NoDup(Without(ws, ids)) && |Without(ws, ids)| <= |ws|
    ensures Ids(Without(ws, ids)) == Ids(ws) - ids
  {
    if ws != [] {
      var pre, w := ws[..|ws| - 1], ws[|ws| - 1];
      WithoutKeepsDistinct(pre, ids);
      forall v | v in pre ensures v.id != w.id {
        var i :| 0 <= i < |pre| && pre[i] == v;
        assert ws[i].id != ws[|ws| - 1].id;
      }
    }
  }

  lemma {:induction false} PickKeepsDistinct(ks: seq<Worker>, ids: set<int>, keep: bool)
    requires NoDupWorkers(ks)
    ensures NoDupWorkers(PickWorkers(ks, ids, keep))
    ensures WorkerIds(PickWorkers(ks, ids, keep)) == if keep then WorkerIds(ks) * ids else WorkerIds(ks) - ids
  {
    if ks != [] {
      var pre, k := ks[..|ks| - 1], ks[|ks| - 1];
      PickKeepsDistinct(pre, ids, keep);
      forall v | v in pre ensures v.id != k.id {
        var i :| 0 <= i < |pre| && pre[i] == v;
        assert ks[i].id != ks[|ks| - 1].id;
      }
    }
  }

  /** Removing one worker shortens the pool by one. */
  lemma {:induction false} RemovingOneShortens(ks: seq<Worker>, k: Worker)
    requires k in ks
    ensures |WithoutWorkers(ks, {k.id})| < |ks|
  {
    if ks[|ks| - 1] != k {
      assert ks == ks[..|ks| - 1] + [ks[|ks| - 1]];
      RemovingOneShortens(ks[..|ks| - 1], k);
    }
  }

  lemma SameIdSameWork(ws: seq<Work>, v: Work, w: Work)
    requires NoDup(ws) && v in ws && w in ws && v.id == w.id
    ensures v == w
  {
    var i :| 0 <= i < |ws| && ws[i] == v;
    var j :| 0 <= j < |ws| && ws[j] == w;
  }

  lemma SameIdSameWorker(ks: seq<Worker>, j: Worker, k: Worker)
    requires NoDupWorkers(ks) && j in ks && k in ks && j.id == k.id
    ensures j == k
  {
    var m :| 0 <= m < |ks| && ks[m] == j;
    var n :| 0 <= n < |ks| && ks[n] == k;
  }

  lemma ReplaceFacts(ks: seq<Worker>, before: Worker, after: Worker)
    requires NoDupWorkers(ks) && before in ks && before.id == after.id
    ensures NoDupWorkers(Replace(ks, after)) && WorkerIds(Replace(ks, after)) == WorkerIds(ks)
    ensures forall k :: k in Replace(ks, after) <==> k == after || (k in ks && k.id != after.id)
  {
    var r := Replace(ks, after);
    var m :| 0 <= m < |ks| && ks[m] == before;
    assert r[m] == after;
    forall k | k in ks && k.id != after.id ensures k in r {
      var i :| 0 <= i < |ks| && ks[i] == k;
      assert r[i] == k;
    }
    forall id | id in WorkerIds(ks) ensures id in WorkerIds(r) {
      var k :| k in ks && k.id == id;
      if id == after.id { assert after in r; } else { assert k in r; }
    }
  }

  lemma IdsAppend(a: seq<Work>, b: seq<Work>)
    ensures Ids(a + b) == Ids(a) + Ids(b)
  {
  }

  lemma WorkerIdsAppend(a: seq<Worker>, b: seq<Worker>)
    ensures WorkerIds(a + b) == WorkerIds(a) + WorkerIds(b)
  {
  }

  /** Worker invariants only look at who is in flight, queued or awaiting a retry. */
  lemma WorkersFrame(cfg: Config, s: State, s': State)
    requires WorkersOk(cfg, s)
    requires s'.workers == s.workers && s'.dead == s.dead && s'.retiring == s.retiring
    requires s'.nextWorker == s.nextWorker && s'.stopping == s.stopping && s'.dropped == s.dropped
    requires forall w :: w in s'.inFlight ==> w in s.inFlight
    requires s.futures.Keys <= s'.futures.Keys
    requires Ids(s'.pending) * s.futures.Keys <= Ids(s.pending)
    requires forall id :: id in s'.held && s'.held[id].handler.ByCrash? ==> id in s.held && s.held[id].handler.ByCrash?
    ensures WorkersOk(cfg, s')
  {
    forall k | k in Carriers(s') ensures CurrentOk(s', k) {
      assert CurrentOk(s, k);
    }
    forall w | w in s'.inFlight ensures Carried(s', w) {
      assert Carried(s, w);
    }
  }

  // ----- the simple steps -----

  lemma SubmitKeepsPlaces(s: State, w: Work)
    requires Places(s) && w.id !in s.futures
    ensures Places(s.(pending := s.pending + [w], futures := s.futures[w.id := Queued],
                      log := s.log[w.id := Log(0, 0, 0, None)]))
  {
    IdsAppend(s.pending, [w]);
    assert Ids([w]) == {w.id};
    forall i | 0 <= i < |s.pending| ensures s.pending[i].id != w.id {
      assert s.pending[i].id in Ids(s.pending);
    }
  }

  lemma SubmitKeepsTasks(cfg: Config, s: State, s': State, w: Work)
    requires Places(s) && TasksOk(cfg, s) && w.id !in s.futures && Places(s')
    requires s' == s.(pending := s.pending + [w], futures := s.futures[w.id := Queued],
                      log := s.log[w.id := Log(0, 0, 0, None)])
    requires QueuedTask(cfg, w, Queued, Log(0, 0, 0, None))
    ensures TasksOk(cfg, s')
  {
    assert s'.pending[|s.pending|] == w;
    QueuedSuffices(cfg, s', w);
    forall i | i in s'.futures && i != w.id ensures Untouched(s, s', i) {
    }
    TasksFrame(cfg, s, s');
  }

  lemma SubmitKeepsWorkers(cfg: Config, s: State, w: Work, log: map<string, Log>)
    requires WorkersOk(cfg, s) && w.id !in s.futures
    ensures WorkersOk(cfg, s.(pending := s.pending + [w], futures := s.futures[w.id := Queued], log := log))
  {
    var s' := s.(pending := s.pending + [w], futures := s.futures[w.id := Queued], log := log);
    IdsAppend(s.pending, [w]);
    assert Ids([w]) == {w.id};
    WorkersFrame(cfg, s, s');
  }

  lemma SubmitKeepsInv(cfg: Config, s: State, id: string, origin: Origin, memoryHint: Option<real>,
                       vramHint: Option<real>, now: real)
    requires Inv(cfg, s) && id !in s.futures
    ensures Inv(cfg, Submit(s, id, origin, memoryHint, vramHint, now))
  {
    hide Places, TasksOk, WorkersOk;
    var s' := Submit(s, id, origin, memoryHint, vramHint, now);
    var w := s'.pending[|s.pending|];
    EstimateRespectsFloor(Stores.Select(s.store, origin).0, memoryHint, vramHint);
    SubmitKeepsPlaces(s, w);
    SubmitKeepsTasks(cfg, s, s', w);
    SubmitKeepsWorkers(cfg, s, w, s'.log);
  }

  /** Only a task in the queue still has a future that can be cancelled. */
  lemma CancellableIsQueued(cfg: Config, s: State, id: string) returns (w: Work)
    requires Places(s) && TasksOk(cfg, s) && id in s.futures && s.futures[id].Queued?
    ensures w in s.pending && w.id == id && !w.runningNotified
  {
    assert TaskOk(cfg, s, id);
    assert forall v :: v in s.inFlight ==> v.id != id;
    assert id in Ids(s.pending);
    w :| w in s.pending && w.id == id;
  }

  lemma CancelKeepsInv(cfg: Config, s: State, id: string)
    requires Inv(cfg, s)
    ensures Inv(cfg, Cancel(s, id))
  {
    var s' := Cancel(s, id);
    if id in s.futures && s.futures[id].Queued? {
      CancelKeepsTasks(cfg, s, id);
      hide TasksOk;
      WorkersFrame(cfg, s, s');
    }
  }

  lemma CancelKeepsTasks(cfg: Config, s: State, id: string)
    requires Places(s) && TasksOk(cfg, s) && id in s.futures && s.futures[id].Queued?
    ensures Places(Cancel(s, id)) && TasksOk(cfg, Cancel(s, id))
  {
    var s' := Cancel(s, id);
    assert Places(s');
    var w := CancellableIsQueued(cfg, s, id);
    assert QueuedTask(cfg, w, s.futures[id], s.log[id]) by { assert TaskOk(cfg, s, id); }
    QueuedSuffices(cfg, s', w);
    forall i | i in s'.futures && i != id ensures Untouched(s, s', i) {
    }
    TasksFrame(cfg, s, s');
  }

  lemma ExpelKeepsPlaces(s: State, ids: set<string>)
    requires Places(s)
    ensures Places(Expel(s, ids))
    ensures Ids(Expel(s, ids).pending) == Ids(s.pending) - ids
  {
    WithoutKeepsDistinct(s.pending, ids * Ids(s.pending));
    FailuresKeepKeys(s, ids * Ids(s.pending));
    MovedIds(Ids(s.pending), Ids(s.inFlight), s.held.Keys, s.finished, s.dropped, ids * Ids(s.pending));
    assert Ids(s.pending) - ids * Ids(s.pending) == Ids(s.pending) - ids;
    hide FailAll, LogFailures, NoDup, Ids, Without;
  }

  /** Ids moving from the first of five disjoint sets to the fourth. */
  lemma MovedIds(a: set<string>, b: set<string>, c: set<string>, d: set<string>, e: set<string>, moving: set<string>)
    requires a !! b !! c !! d !! e && moving <= a
    ensures (a - moving) !! b !! c !! (d + moving) !! e
    ensures (a - moving) + b + c + (d + moving) + e == a + b + c + d + e
  {
  }

  lemma FailuresKeepKeys(s: State, ids: set<string>)
    ensures FailAll(s.futures, ids).Keys == s.futures.Keys && LogFailures(s.log, s.futures, ids).Keys == s.log.Keys
  {
  }

  lemma ExpelKeepsInv(cfg: Config, s: State, ids: set<string>)
    requires Inv(cfg, s)
    ensures Inv(cfg, Expel(s, ids))
  {
    var s' := Expel(s, ids);
    ExpelKeepsPlaces(s, ids);
    ExpelKeepsTasks(cfg, s, ids);
    WorkersFrame(cfg, s, s');
  }

  lemma ExpelKeepsTasks(cfg: Config, s: State, ids: set<string>)
    requires Places(s) && TasksOk(cfg, s) && Places(Expel(s, ids))
    ensures TasksOk(cfg, Expel(s, ids))
  {
    var s' := Expel(s, ids);
    var gone := ids * Ids(s.pending);
    forall id | id in gone ensures TaskOk(cfg, s', id) {
      assert TaskOk(cfg, s, id);
      var w :| w in s.pending && w.id == id;
      ElsewhereSuffices(cfg, s', id);
    }
    forall id | id in s'.futures && id !in gone ensures Untouched(s, s', id) {
    }
    TasksFrame(cfg, s, s');
  }

  /** Settling touches one future and its history. */
  lemma SettleFrame(s: State, id: string, ok: bool)
    requires s.log.Keys == s.futures.Keys
    ensures var t := Settle(s, id, ok);
      && t == s.(futures := t.futures, log := t.log)
      && t.futures.Keys == s.futures.Keys && t.log.Keys == s.log.Keys
      && (forall i :: i in s.futures && i != id ==> t.futures[i] == s.futures[i] && t.log[i] == s.log[i])
  {
  }

  lemma SettledIsFinished(cfg: Config, s: State, w: Work, ok: bool)
    requires w.id in s.futures && w.id in s.log && SentTask(cfg, w, s.futures[w.id], s.log[w.id])
    ensures var t := Settle(s, w.id, ok);
      w.id in t.futures && w.id in t.log && FinishedTask(cfg, t.futures[w.id], t.log[w.id])
      && t.futures[w.id] == Finished(ok) && t.log[w.id].dispatches == s.log[w.id].dispatches
  {
  }

  lemma ConcludeKeepsPlaces(s: State, id: string, ok: bool)
    requires Places(s) && id in s.held
    ensures Places(Conclude(s, id, ok))
  {
    SettleFrame(s, id, ok);
    hide Settle, NoDup, Ids;
  }

  lemma ConcludeKeepsTasks(cfg: Config, s: State, id: string, ok: bool)
    requires Places(s) && TasksOk(cfg, s) && id in s.held && Places(Conclude(s, id, ok))
    ensures TasksOk(cfg, Conclude(s, id, ok))
  {
    var s' := Conclude(s, id, ok);
    SettleFrame(s, id, ok);
    assert TaskOk(cfg, s, id);
    SettledIsFinished(cfg, s, s.held[id].work, ok);
    hide Settle, SentTask, FinishedTask, QueuedTask, DroppedTask;
    ElsewhereSuffices(cfg, s', id);
    forall i | i in s'.futures && i != id ensures Untouched(s, s', i) {
    }
    TasksFrame(cfg, s, s');
  }

  lemma ConcludeKeepsInv(cfg: Config, s: State, id: string, ok: bool)
    requires Inv(cfg, s) && id in s.held
    ensures Inv(cfg, Conclude(s, id, ok))
  {
    ConcludeKeepsPlaces(s, id, ok);
    ConcludeKeepsTasks(cfg, s, id, ok);
    SettleFrame(s, id, ok);
    hide Settle, TasksOk;
    WorkersFrame(cfg, s, Conclude(s, id, ok));
  }

  lemma StoreIsIrrelevant(cfg: Config, s: State, store: Store)
    requires Inv(cfg, s)
    ensures Inv(cfg, s.(store := store))
  {
    var s' := s.(store := store);
    assert Places(s');
    assert forall i :: i in s'.futures ==> Untouched(s, s', i);
    TasksFrame(cfg, s, s');
    WorkersFrame(cfg, s, s');
  }

  // ----- tasks leaving flight, workers leaving tasks -----

  lemma PopKeepsPlaces(s: State, w: Work, held: Held)
    requires Places(s) && w in s.inFlight && held.work.id == w.id
    ensures Places(Popped(s, w, held))
  {
    assert w.id in Ids(s.inFlight);
    WithoutKeepsDistinct(s.inFlight, {w.id});
  }

  lemma PopKeepsTasks(cfg: Config, s: State, w: Work, held: Held)
    requires Places(s) && TasksOk(cfg, s) && w in s.inFlight && Places(Popped(s, w, held))
    requires held.work == w || held.work == w.(resultIgnored := true)
    ensures TasksOk(cfg, Popped(s, w, held))
  {
    var s' := Popped(s, w, held);
    assert w.id in Ids(s.inFlight);
    assert TaskOk(cfg, s, w.id);
    ElsewhereSuffices(cfg, s', w.id);
    forall i | i in s'.futures && i != w.id ensures Untouched(s, s', i) {
    }
    TasksFrame(cfg, s, s');
  }

  lemma PopKeepsInv(cfg: Config, s: State, w: Work, held: Held)
    requires Inv(cfg, s) && w in s.inFlight && !held.handler.ByCrash?
    requires held.work == w || held.work == w.(resultIgnored := true)
    ensures Inv(cfg, Popped(s, w, held))
  {
    hide Places, TasksOk, WorkersOk;
    PopKeepsPlaces(s, w, held);
    PopKeepsTasks(cfg, s, w, held);
    PopKeepsWorkers(cfg, s, w, held);
  }

  lemma PopKeepsWorkers(cfg: Config, s: State, w: Work, held: Held)
    requires WorkersOk(cfg, s) && !held.handler.ByCrash?
    ensures WorkersOk(cfg, Popped(s, w, held))
  {
    hide WorkersOk;
    WorkersFrame(cfg, s, Popped(s, w, held));
  }

  /** Nothing about a task changes. */
  ghost predicate SameTasks(s: State, s': State) {
    && s'.pending == s.pending && s'.inFlight == s.inFlight && s'.held == s.held && s'.finished == s.finished
    && s'.dropped == s.dropped && s'.futures == s.futures && s'.log == s.log && s'.broken == s.broken
  }

  lemma SameTasksKeepPlacesAndTasks(cfg: Config, s: State, s': State)
    requires Places(s) && TasksOk(cfg, s) && SameTasks(s, s')
    ensures Places(s') && TasksOk(cfg, s')
  {
    assert forall i :: i in s'.futures ==> Untouched(s, s', i);
    TasksFrame(cfg, s, s');
  }

  ghost predicate OffFlight(s: State, k: Worker) {
    k.current == None || forall w :: w in s.inFlight ==> w.id != k.current.value
  }

  lemma CarrierStays(s: State, w: Work, k: Worker, s': State)
    requires Carried(s, w) && w in s.inFlight && OffFlight(s, k) && NoDupWorkers(s.workers) && k in s.workers
    requires forall j :: j in Carriers(s) && (j in s.dead || j.id != k.id) ==> j in Carriers(s')
    ensures Carried(s', w)
  {
    var j :| j in Carriers(s) && On(j, w);
    if j in s.workers && j.id == k.id {
      SameIdSameWorker(s.workers, j, k);
    }
    assert j in Carriers(s');
  }

  lemma FreeingKeepsWorkers(cfg: Config, s: State, k: Worker, k': Worker)
    requires WorkersOk(cfg, s) && k in s.workers && OffFlight(s, k)
    requires k'.id == k.id && k'.current == None && k'.stopped == k.stopped && k'.poisoned == k.poisoned
    ensures WorkersOk(cfg, s.(workers := Replace(s.workers, k')))
  {
    var s' := s.(workers := Replace(s.workers, k'));
    ReplaceFacts(s.workers, k, k');
    forall j | j in Carriers(s') ensures CurrentOk(s', j) && (j.stopped ==> s'.stopping) {
      assert k in Carriers(s);
      if j != k' { assert j in Carriers(s); assert CurrentOk(s, j); }
    }
    forall w | w in s'.inFlight ensures Carried(s', w) {
      CarrierStays(s, w, k, s');
    }
  }

  /** A worker whose task is no longer in flight may become idle. */
  lemma FreeingKeepsInv(cfg: Config, s: State, k: Worker, k': Worker)
    requires Inv(cfg, s) && k in s.workers && OffFlight(s, k)
    requires k'.id == k.id && k'.current == None && k'.stopped == k.stopped && k'.poisoned == k.poisoned
    ensures Inv(cfg, s.(workers := Replace(s.workers, k')))
  {
    hide Places, TasksOk, WorkersOk;
    FreeingKeepsWorkers(cfg, s, k, k');
    SameTasksKeepPlacesAndTasks(cfg, s, s.(workers := Replace(s.workers, k')));
  }

  function Moved(s: State, k: Worker, k': Worker): State {
    s.(workers := WithoutWorkers(s.workers, {k.id}), retiring := s.retiring + [k'])
  }

  lemma RetiringKeepsWorkers(cfg: Config, s: State, k: Worker, k': Worker)
    requires WorkersOk(cfg, s) && k in s.workers && OffFlight(s, k)
    requires k'.id == k.id && k'.current == None
    ensures WorkersOk(cfg, Moved(s, k, k'))
  {
    var s' := Moved(s, k, k');
    PickKeepsDistinct(s.workers, {k.id}, false);
    WorkerIdsAppend(s.retiring, [k']);
    assert WorkerIds([k']) == {k.id};
    assert k.id in WorkerIds(s.workers);
    forall j | j in Carriers(s') ensures CurrentOk(s', j) && (j.stopped ==> s'.stopping) {
      assert j in Carriers(s) && CurrentOk(s, j);
    }
    forall w | w in s'.inFlight ensures Carried(s', w) {
      CarrierStays(s, w, k, s');
    }
  }

  /** A worker whose task is no longer in flight may leave the pool. */
  lemma RetiringKeepsInv(cfg: Config, s: State, k: Worker, k': Worker)
    requires Inv(cfg, s) && k in s.workers && OffFlight(s, k)
    requires k'.id == k.id && k'.current == None
    ensures Inv(cfg, Moved(s, k, k'))
  {
    hide Places, TasksOk, WorkersOk;
    RetiringKeepsWorkers(cfg, s, k, k');
    SameTasksKeepPlacesAndTasks(cfg, s, Moved(s, k, k'));
  }

  // ----- results and timeouts -----

  lemma FreeWorkerKeepsInv(cfg: Config, s: State, id: string, workerId: int)
    requires Inv(cfg, s) && id !in Ids(s.inFlight)
    ensures Inv(cfg, FreeWorker(cfg, s, id, workerId))
  {
    hide Inv;
    var worker := FindWorker(s.workers, workerId);
    if worker.Some? && worker.value.current == Some(id) {
      var k := worker.value;
      var freed := k.(current := None, tasksCompleted := k.tasksCompleted + 1);
      assert OffFlight(s, k) by { assert forall w :: w in s.inFlight ==> w.id in Ids(s.inFlight); }
      FreeingKeepsInv(cfg, s, k, freed);
      RetiringKeepsInv(cfg, s, k, freed.(stopped := true));
    }
  }

  lemma TakeResultKeepsInv(cfg: Config, s: State, id: string, workerId: int)
    requires Inv(cfg, s)
    ensures Inv(cfg, TakeResult(cfg, s, id, workerId))
  {
    hide Inv, FreeWorker;
    var found := Find(s.inFlight, id);
    if found == None {
      FreeWorkerKeepsInv(cfg, s, id, workerId);
    } else {
      var w := found.value;
      NeverIgnored(cfg, s, w);
      PopKeepsInv(cfg, s, w, Held(w, ByResult));
      FreeWorkerKeepsInv(cfg, Popped(s, w, Held(w, ByResult)), id, workerId);
    }
  }

  /** The branch for ignored results is unreachable: no task in flight is marked ignored. */
  lemma NeverIgnored(cfg: Config, s: State, w: Work)
    requires Inv(cfg, s) && w in s.inFlight
    ensures !w.resultIgnored && w.id in s.futures && s.futures[w.id].Running?
  {
    assert w.id in Ids(s.inFlight);
    assert TaskOk(cfg, s, w.id);
  }

  lemma TakeTimeoutKeepsInv(cfg: Config, s: State, id: string)
    requires Inv(cfg, s)
    ensures Inv(cfg, TakeTimeout(cfg, s, id))
  {
    hide Inv;
    var found := Find(s.inFlight, id);
    if found.Some? {
      var w := found.value;
      NeverIgnored(cfg, s, w);
      var worker := if w.worker == None then None else FindWorker(s.workers, w.worker.value);
      var held := Held(if cfg.killOnTimeout && w.worker.Some? then w else w.(resultIgnored := true), ByTimeout);
      var popped := Popped(s, w, held);
      PopKeepsInv(cfg, s, w, held);
      if worker.Some? {
        var k := worker.value;
        TimedOutWorkerIsOff(cfg, s, w, k);
        if cfg.killOnTimeout {
          RetiringKeepsInv(cfg, popped, k, k.(stopped := true, poisoned := true, current := None));
        } else if k.current == Some(id) {
          FreeingKeepsInv(cfg, popped, k, k.(current := None));
        }
      }
    }
  }

  /** The worker a task names is on that task, and so on no other. */
  lemma TimedOutWorkerIsOff(cfg: Config, s: State, w: Work, k: Worker)
    requires Inv(cfg, s) && w in s.inFlight && k in s.workers && w.worker == Some(k.id)
    ensures k.current == Some(w.id)
    ensures forall held :: OffFlight(Popped(s, w, held), k)
  {
    assert Carried(s, w);
    var j :| j in Carriers(s) && On(j, w);
    assert k.id in WorkerIds(s.workers);
    assert j in s.dead ==> j.id in WorkerIds(s.dead);
    SameIdSameWorker(s.workers, j, k);
  }

  // ----- dead workers -----

  lemma CheckWorkersKeepsInv(cfg: Config, s: State, gone: set<int>)
    requires Inv(cfg, s)
    ensures Inv(cfg, CheckWorkers(s, gone))
  {
    hide Places, TasksOk, WorkersOk;
    CheckWorkersKeepsWorkers(cfg, s, gone);
    SameTasksKeepPlacesAndTasks(cfg, s, CheckWorkers(s, gone));
  }

  lemma CheckWorkersKeepsWorkers(cfg: Config, s: State, gone: set<int>)
    requires WorkersOk(cfg, s)
    ensures WorkersOk(cfg, CheckWorkers(s, gone))
  {
    var s' := CheckWorkers(s, gone);
    PickKeepsDistinct(s.workers, gone, false);
    PickKeepsDistinct(s.workers, gone, true);
    var lost := PickWorkers(s.workers, gone, true);
    WorkerIdsAppend(s.dead, lost);
    assert NoDupWorkers(s'.dead) by {
      forall m, n | 0 <= m < n < |s'.dead| ensures s'.dead[m].id != s'.dead[n].id {
        if m < |s.dead| <= n {
          assert s'.dead[m].id in WorkerIds(s.dead) && s'.dead[n].id in WorkerIds(s.workers);
        }
      }
    }
    RetiringShrinks(s, gone);
    forall j | j in Carriers(s') ensures CurrentOk(s', j) && (j.stopped ==> s'.stopping) {
      assert j in Carriers(s) && CurrentOk(s, j);
    }
    forall w | w in s'.inFlight ensures Carried(s', w) {
      var j :| j in Carriers(s) && On(j, w);
      assert j in Carriers(s');
    }
  }

  lemma RetiringShrinks(s: State, gone: set<int>)
    ensures WorkerIds(WithoutWorkers(s.retiring, gone)) <= WorkerIds(s.retiring)
  {
  }

  lemma BuryKeepsWorkers(cfg: Config, s: State, s': State, k: Worker)
    requires WorkersOk(cfg, s) && k in s.dead
    requires s'.workers == s.workers && s'.dead == Buried(s, k).dead && s'.retiring == s.retiring
    requires s'.nextWorker == s.nextWorker && s'.stopping == s.stopping && s'.futures == s.futures
    requires s'.pending == s.pending
    requires s'.dropped != {} ==> s.stopping
    requires forall w :: w in s'.inFlight ==> w in s.inFlight && k.current != Some(w.id)
    requires forall id :: id in s'.held && s'.held[id].handler.ByCrash? ==>
      (k.current == Some(id) && id in Ids(s.inFlight)) || (id in s.held && s.held[id].handler.ByCrash?)
    ensures WorkersOk(cfg, s')
  {
    PickKeepsDistinct(s.dead, {k.id}, false);
    assert k in Carriers(s) && CurrentOk(s, k) && k.id in WorkerIds(s.dead);
    forall j | j in Carriers(s') ensures CurrentOk(s', j) && (j.stopped ==> s'.stopping) {
      assert j in Carriers(s) && CurrentOk(s, j);
      assert j.id != k.id by { assert j in s.workers ==> j.id in WorkerIds(s.workers); }
    }
    forall w | w in s'.inFlight ensures Carried(s', w) {
      assert Carried(s, w);
      var j :| j in Carriers(s) && On(j, w);
      if j in s.dead && j.id == k.id { SameIdSameWorker(s.dead, j, k); }
      assert j in Carriers(s');
    }
  }

  lemma TakeLostKeepsInv(cfg: Config, s: State, workerId: int)
    requires Inv(cfg, s)
    ensures Inv(cfg, TakeLost(s, workerId))
  {
    var worker := FindWorker(s.dead, workerId);
    if worker.Some? {
      var k := worker.value;
      var found := if k.current == None then None else Find(s.inFlight, k.current.value);
      if found == None {
        BuriedKeepsInv(cfg, s, k);
      } else if k.stopped {
        DropKeepsInv(cfg, s, k, found.value);
      } else {
        LostKeepsInv(cfg, s, k, found.value);
      }
    }
  }

  lemma BuriedKeepsInv(cfg: Config, s: State, k: Worker)
    requires Inv(cfg, s) && k in s.dead && (k.current.Some? ==> k.current.value !in Ids(s.inFlight))
    ensures Inv(cfg, Buried(s, k))
  {
    hide Places, TasksOk;
    BuryKeepsWorkers(cfg, s, Buried(s, k), k);
    SameTasksKeepPlacesAndTasks(cfg, s, Buried(s, k));
  }

  lemma LostKeepsInv(cfg: Config, s: State, k: Worker, w: Work)
    requires Inv(cfg, s) && k in s.dead && w in s.inFlight && k.current == Some(w.id)
    ensures Inv(cfg, Popped(Buried(s, k), w, Held(w, ByCrash)))
  {
    hide Places, TasksOk;
    var b := Buried(s, k);
    var s' := Popped(b, w, Held(w, ByCrash));
    SameTasksKeepPlacesAndTasks(cfg, s, b);
    PopKeepsPlaces(b, w, Held(w, ByCrash));
    PopKeepsTasks(cfg, b, w, Held(w, ByCrash));
    assert w.id in Ids(s.inFlight);
    BuryKeepsWorkers(cfg, s, s', k);
  }

  lemma DropKeepsPlaces(s: State, w: Work)
    requires Places(s) && w in s.inFlight
    ensures Places(Dropping(s, w))
  {
    assert w.id in Ids(s.inFlight);
    WithoutKeepsDistinct(s.inFlight, {w.id});
    MovedIds(Ids(s.inFlight), Ids(s.pending), s.held.Keys, s.dropped, s.finished, {w.id});
    hide NoDup, Ids, Without;
  }

  lemma DropKeepsTasks(cfg: Config, s: State, w: Work)
    requires Places(s) && TasksOk(cfg, s) && w in s.inFlight && Places(Dropping(s, w))
    ensures TasksOk(cfg, Dropping(s, w))
  {
    var s' := Dropping(s, w);
    assert w.id in Ids(s.inFlight);
    assert TaskOk(cfg, s, w.id);
    ElsewhereSuffices(cfg, s', w.id);
    forall i | i in s'.futures && i != w.id ensures Untouched(s, s', i) {
    }
    TasksFrame(cfg, s, s');
  }

  lemma DropKeepsInv(cfg: Config, s: State, k: Worker, w: Work)
    requires Inv(cfg, s) && k in s.dead && w in s.inFlight && k.current == Some(w.id) && k.stopped
    ensures Inv(cfg, Dropping(Buried(s, k), w))
  {
    hide Places, TasksOk;
    var b := Buried(s, k);
    SameTasksKeepPlacesAndTasks(cfg, s, b);
    DropKeepsPlaces(b, w);
    DropKeepsTasks(cfg, b, w);
    assert k in Carriers(s);
    BuryKeepsWorkers(cfg, s, Dropping(b, w), k);
  }

  // ----- crash retries -----

  lemma DoublingStep(x: real, k: nat)
    requires x >= 0.0
    ensures Doubled(x, k) >= 0.0 && Doubled(x, k + 1) == 2.0 * Doubled(x, k)
    decreases k
  {
    if k > 0 { DoublingStep(x, k - 1); }
  }

  /** A penalized task is doubled exactly, and fit to be queued again. */
  lemma PenalizedIsQueueable(cfg: Config, w: Work, f: Future, l: Log)
    requires SentTask(cfg, w, f, l) && w.retries < cfg.maxRetries
    ensures QueuedTask(cfg, Penalized(w), f, l)
  {
    DoublingStep(l.first.value.memory, w.retries);
    DoublingStep(l.first.value.vram, w.retries);
  }

  function Requeued(s: State, id: string, w: Work): State {
    s.(pending := [Penalized(w)] + s.pending, held := s.held - {id})
  }

  lemma RequeueKeepsPlaces(s: State, id: string)
    requires Places(s) && id in s.held
    ensures Places(Requeued(s, id, s.held[id].work))
  {
    var w := Penalized(s.held[id].work);
    IdsAppend([w], s.pending);
    assert Ids([w]) == {id};
    forall i | 0 <= i < |s.pending| ensures s.pending[i].id != id {
      assert s.pending[i].id in Ids(s.pending);
    }
  }

  lemma RequeueKeepsTasks(cfg: Config, s: State, id: string)
    requires Places(s) && TasksOk(cfg, s) && id in s.held && Places(Requeued(s, id, s.held[id].work))
    requires s.held[id].work.retries < cfg.maxRetries
    ensures TasksOk(cfg, Requeued(s, id, s.held[id].work))
  {
    var s' := Requeued(s, id, s.held[id].work);
    var w := s'.pending[0];
    assert TaskOk(cfg, s, id);
    PenalizedIsQueueable(cfg, s.held[id].work, s.futures[id], s.log[id]);
    QueuedSuffices(cfg, s', w);
    forall i | i in s'.futures && i != id ensures Untouched(s, s', i) {
    }
    TasksFrame(cfg, s, s');
  }

  lemma RequeueKeepsInv(cfg: Config, s: State, id: string)
    requires Inv(cfg, s) && id in s.held && s.held[id].handler.ByCrash? && s.held[id].work.retries < cfg.maxRetries
    ensures Inv(cfg, Requeued(s, id, s.held[id].work))
  {
    hide TasksOk;
    var s' := Requeued(s, id, s.held[id].work);
    RequeueKeepsPlaces(s, id);
    RequeueKeepsTasks(cfg, s, id);
    RequeueKeepsWorkers(cfg, s, id);
  }

  lemma RequeueKeepsWorkers(cfg: Config, s: State, id: string)
    requires WorkersOk(cfg, s) && id in s.held && s.held[id].handler.ByCrash? && s.held[id].work.id == id
    ensures WorkersOk(cfg, Requeued(s, id, s.held[id].work))
  {
    var s' := Requeued(s, id, s.held[id].work);
    IdsAppend([s'.pending[0]], s.pending);
    assert Ids([s'.pending[0]]) == {id};
    forall k | k in Carriers(s') ensures CurrentOk(s', k) {
      assert k in Carriers(s) && CurrentOk(s, k);
    }
    forall w | w in s'.inFlight ensures Carried(s', w) {
      assert Carried(s, w);
    }
  }

  lemma FinishLostKeepsInv(cfg: Config, s: State, id: string, exitCode: Option<int>)
    requires Inv(cfg, s)
    ensures Inv(cfg, FinishLost(cfg, s, id, exitCode))
  {
    hide Inv;
    if id in s.held && s.held[id].handler.ByCrash? {
      var w := s.held[id].work;
      if w.retries < cfg.maxRetries && LooksLikeOom(exitCode) {
        var store := Record(s.store, w.origin, Crashed(w.estimate.memory));
        StoreIsIrrelevant(cfg, s, store);
        RequeueKeepsInv(cfg, s.(store := store), id);
      } else {
        ConcludeKeepsInv(cfg, s, id, false);
      }
    }
  }

  lemma FinishResultKeepsInv(cfg: Config, s: State, id: string, ok: bool, observation: Observation)
    requires Inv(cfg, s)
    ensures Inv(cfg, FinishResult(s, id, ok, observation))
  {
    hide Inv;
    if id in s.held && s.held[id].handler.ByResult? {
      var store := Record(s.store, s.held[id].work.origin, Observed(observation));
      StoreIsIrrelevant(cfg, s, store);
      ConcludeKeepsInv(cfg, s.(store := store), id, ok);
    }
  }

  lemma FinishTimeoutKeepsInv(cfg: Config, s: State, id: string)
    requires Inv(cfg, s)
    ensures Inv(cfg, FinishTimeout(s, id))
  {
    hide Inv;
    if id in s.held && s.held[id].handler.ByTimeout? {
      ConcludeKeepsInv(cfg, s, id, false);
    }
  }

  lemma StoppedSameIds(before: seq<Worker>, after: seq<Worker>)
    requires |after| == |before| && forall i :: 0 <= i < |before| ==> after[i] == before[i].(stopped := true)
    ensures WorkerIds(after) == WorkerIds(before) && (NoDupWorkers(before) ==> NoDupWorkers(after))
  {
    forall k | k in before ensures k.id in WorkerIds(after) {
      var i :| 0 <= i < |before| && before[i] == k;
      assert after[i] in after;
    }
  }

  lemma StopAllKeepsWorkers(cfg: Config, s: State)
    requires WorkersOk(cfg, s)
    ensures WorkersOk(cfg, StopAll(s))
  {
    var s' := StopAll(s);
    forall i | 0 <= i < |s.workers| ensures s.workers[i].(stopped := true) in s'.workers {
      assert s'.workers[i] == s.workers[i].(stopped := true);
    }
    StoppedSameIds(s.workers, s'.workers);
    forall k | k in Carriers(s') ensures CurrentOk(s', k) {
      if k in s'.workers {
        var i :| 0 <= i < |s.workers| && k == s.workers[i].(stopped := true);
        assert s.workers[i] in Carriers(s) && CurrentOk(s, s.workers[i]);
      } else {
        assert k in Carriers(s) && CurrentOk(s, k);
      }
    }
    forall w | w in s'.inFlight ensures Carried(s', w) {
      assert Carried(s, w);
      var j :| j in Carriers(s) && On(j, w);
      assert j in s.workers ==> j.(stopped := true) in Carriers(s');
    }
  }

  lemma StopAllKeepsInv(cfg: Config, s: State)
    requires Inv(cfg, s)
    ensures Inv(cfg, StopAll(s))
  {
    hide Places, TasksOk, WorkersOk;
    StopAllKeepsWorkers(cfg, s);
    SameTasksKeepPlacesAndTasks(cfg, s, StopAll(s));
  }
}
