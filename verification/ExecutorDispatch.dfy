/** A dispatch cycle keeps the executor's invariant, and does what its plan says. */
module ExecutorDispatch {
  import opened Quantities
  import opened Profiles
  import opened Stores
  import opened Accounting
  import opened Admission
  import opened Planning
  import opened Reservations
  import opened Plans
  import opened ExecutorState
  import opened ExecutorInvariants

  // ----- rewriting tasks in place -----

  /** The same tasks in the same order, possibly with new contents. */
  ghost predicate SameOrder(a: seq<Work>, b: seq<Work>) {
    |a| == |b| && forall i :: 0 <= i < |a| ==> a[i].id == b[i].id && a[i].worker == b[i].worker && a[i].gpu == b[i].gpu
  }

  lemma SameOrderSameIds(a: seq<Work>, b: seq<Work>)
    requires SameOrder(a, b)
    ensures Ids(a) == Ids(b) && (NoDup(a) ==> NoDup(b))
  {
    forall id | id in Ids(a) ensures id in Ids(b) {
      var i :| 0 <= i < |a| && a[i].id == id;
      assert b[i] in b;
    }
    forall id | id in Ids(b) ensures id in Ids(a) {
      var i :| 0 <= i < |b| && b[i].id == id;
      assert a[i] in a;
    }
  }

  lemma RewriteQueueKeepsInv(cfg: Config, s: State, ws: seq<Work>)
    requires Inv(cfg, s) && SameOrder(s.pending, ws)
    requires forall i, f, l :: 0 <= i < |ws| && QueuedTask(cfg, s.pending[i], f, l) ==> QueuedTask(cfg, ws[i], f, l)
    ensures Inv(cfg, s.(pending := ws))
  {
    var s' := s.(pending := ws);
    SameOrderSameIds(s.pending, ws);
    assert Places(s');
    forall i | 0 <= i < |ws| ensures TaskOk(cfg, s', ws[i].id) {
      assert s.pending[i].id in Ids(s.pending);
      assert TaskOk(cfg, s, s.pending[i].id);
      QueuedSuffices(cfg, s', ws[i]);
    }
    forall id | id in s'.futures ensures Untouched(s, s', id) || TaskOk(cfg, s', id) {
      if id in Ids(ws) {
        var i :| 0 <= i < |ws| && ws[i].id == id;
      } else {
        assert Untouched(s, s', id);
      }
    }
    TasksFrame(cfg, s, s');
    WorkersFrame(cfg, s, s');
  }

  lemma RewriteFlightKeepsInv(cfg: Config, s: State, ws: seq<Work>)
    requires Inv(cfg, s) && SameOrder(s.inFlight, ws)
    requires forall i, f, l :: 0 <= i < |ws| && SentTask(cfg, s.inFlight[i], f, l) ==> SentTask(cfg, ws[i], f, l)
    requires forall i :: 0 <= i < |ws| ==> ws[i].resultIgnored == s.inFlight[i].resultIgnored
    ensures Inv(cfg, s.(inFlight := ws))
  {
    var s' := s.(inFlight := ws);
    SameOrderSameIds(s.inFlight, ws);
    assert Places(s');
    forall i | 0 <= i < |ws| ensures TaskOk(cfg, s', ws[i].id) {
      assert s.inFlight[i].id in Ids(s.inFlight);
      assert TaskOk(cfg, s, s.inFlight[i].id);
      SentSuffices(cfg, s', ws[i]);
    }
    forall id | id in s'.futures ensures Untouched(s, s', id) || TaskOk(cfg, s', id) {
      if id in Ids(ws) {
        var i :| 0 <= i < |ws| && ws[i].id == id;
      } else {
        assert Untouched(s, s', id);
      }
    }
    TasksFrame(cfg, s, s');
    RewriteFlightKeepsWorkers(cfg, s, ws);
  }

  lemma RewriteFlightKeepsWorkers(cfg: Config, s: State, ws: seq<Work>)
    requires WorkersOk(cfg, s) && SameOrder(s.inFlight, ws)
    ensures WorkersOk(cfg, s.(inFlight := ws))
  {
    var s' := s.(inFlight := ws);
    forall w | w in ws
      ensures Carried(s', w)
      ensures exists v :: v in s.inFlight && v.id == w.id && v.worker == w.worker && v.gpu == w.gpu
    {
      var i :| 0 <= i < |ws| && ws[i] == w;
      assert Carried(s, s.inFlight[i]);
      var k :| k in Carriers(s) && On(k, s.inFlight[i]);
      assert k in Carriers(s') && On(k, w);
    }
    forall k | k in Carriers(s') ensures CurrentOk(s', k) {
      assert CurrentOk(s, k);
    }
  }

  lemma ReestimateKeepsQueued(cfg: Config, store: Store, now: real, w: Work, f: Future, l: Log)
    requires QueuedTask(cfg, w, f, l)
    ensures QueuedTask(cfg, Reestimate(cfg, store, now, w), f, l)
  {
    EstimateRespectsFloor(Stores.Select(store, w.origin).0, w.memoryHint, w.vramHint);
  }

  lemma PreparedKeepsInv(cfg: Config, s: State, env: Env)
    requires Inv(cfg, s)
    ensures Inv(cfg, Prepared(cfg, s, env))
  {
    hide Inv, QueuedTask;
    var ws := ReestimateAll(cfg, s.store, env.now, s.pending);
    forall i, f, l | 0 <= i < |ws| && QueuedTask(cfg, s.pending[i], f, l) ensures QueuedTask(cfg, ws[i], f, l) {
      ReestimateKeepsQueued(cfg, s.store, env.now, s.pending[i], f, l);
    }
    RewriteQueueKeepsInv(cfg, s, ws);
    ExpelKeepsInv(cfg, s.(pending := ws), InfeasibleIds(cfg, env.sweep, ws));
  }

  lemma SurveyedKeepsInv(cfg: Config, s: State, env: Env)
    requires Inv(cfg, s)
    ensures Inv(cfg, Surveyed(s, env))
  {
    hide Inv;
    var seen := ObserveAll(env.readings, s.inFlight);
    RewriteFlightKeepsInv(cfg, s, seen);
    RewriteQueueKeepsInv(cfg, s.(inFlight := seen), StampAll(s.store, s.pending));
  }

  // ----- acquiring a worker -----

  lemma SpawnKeepsInv(cfg: Config, s: State, pin: Option<int>)
    requires Inv(cfg, s) && |s.workers| < cfg.maxWorkers
    ensures Inv(cfg, Spawn(s, pin))
  {
    hide Places, TasksOk;
    var s' := Spawn(s, pin);
    var k := s'.workers[|s.workers|];
    SameTasksKeepPlacesAndTasks(cfg, s, s');
    WorkerIdsAppend(s.workers, [k]);
    assert WorkerIds([k]) == {s.nextWorker};
    forall j | j in Carriers(s') ensures CurrentOk(s', j) && (j.stopped ==> s'.stopping) {
      assert j == k || (j in Carriers(s) && CurrentOk(s, j));
    }
    forall w | w in s'.inFlight ensures Carried(s', w) {
      assert Carried(s, w);
      var j :| j in Carriers(s) && On(j, w);
      assert j in Carriers(s');
    }
  }

  ghost predicate HasIdle(s: State, k: int, pin: Option<int>) {
    exists worker :: worker in s.workers && worker.id == k && worker.current == None && worker.pinned == pin
  }

  lemma EvictKeepsInv(cfg: Config, s: State, pin: Option<int>, victim: Worker)
    requires Inv(cfg, s) && victim in s.workers && victim.current == None
    ensures var s' := Spawn(Retire(s, victim), pin);
      Inv(cfg, s') && HasIdle(s', s.nextWorker, pin) && SameTasks(s, s') && s'.store == s.store
  {
    hide Inv;
    RetiringKeepsInv(cfg, s, victim, victim.(stopped := true));
    RemovingOneShortens(s.workers, victim);
    PoolBound(cfg, s);
    SpawnedIsIdle(Retire(s, victim), pin);
    SpawnKeepsInv(cfg, Retire(s, victim), pin);
  }

  lemma AcquireKeepsInv(cfg: Config, s: State, pin: Option<int>, alive: set<int>)
    requires Inv(cfg, s)
    ensures var r := Acquire(cfg, s, pin, alive);
      r.Some? ==>
        Inv(cfg, r.value.1) && SameTasks(s, r.value.1) && HasIdle(r.value.1, r.value.0, pin)
          && r.value.1.store == s.store
  {
    hide Inv, HasIdle, Spawn, Retire;
    var idle := FirstIdle(s.workers, alive, false, pin);
    if idle.Some? {
      assert HasIdle(s, idle.value.id, pin) by { FoundIsIdle(s, idle.value); }
    } else if |s.workers| >= cfg.maxWorkers {
      var victim := FirstIdle(s.workers, alive, true, None);
      if victim.Some? {
        EvictKeepsInv(cfg, s, pin, victim.value);
      }
    } else {
      SpawnedIsIdle(s, pin);
      SpawnKeepsInv(cfg, s, pin);
    }
  }

  lemma FoundIsIdle(s: State, k: Worker)
    requires k in s.workers && k.current == None
    ensures HasIdle(s, k.id, k.pinned)
  {
  }

  lemma PoolBound(cfg: Config, s: State)
    requires Inv(cfg, s)
    ensures |s.workers| <= cfg.maxWorkers
  {
  }

  lemma SpawnedIsIdle(s: State, pin: Option<int>)
    ensures HasIdle(Spawn(s, pin), s.nextWorker, pin) && SameTasks(s, Spawn(s, pin)) && Spawn(s, pin).store == s.store
  {
    assert Spawn(s, pin).workers[|s.workers|].id == s.nextWorker;
  }

  lemma {:induction false} FirstIdleExists(ks: seq<Worker>, alive: set<int>, anyPin: bool, pin: Option<int>)
    ensures FirstIdle(ks, alive, anyPin, pin) == None <==>
      forall k :: k in ks ==> !(Idle(k, alive) && (anyPin || k.pinned == pin))
  {
    if ks != [] {
      FirstIdleExists(ks[1..], alive, anyPin, pin);
      assert ks == [ks[0]] + ks[1..];
    }
  }

  /** Back-pressure is exact: no worker can be had exactly when the pool is at its cap and every
      worker in it is busy, stopped or dead; and while one with the right pin is idle, none is
      spawned or evicted. */
  lemma BackpressureIsExact(cfg: Config, s: State, pin: Option<int>, alive: set<int>)
    ensures Acquire(cfg, s, pin, alive) == None <==>
      |s.workers| >= cfg.maxWorkers && forall k :: k in s.workers ==> !Idle(k, alive)
    ensures (exists k :: k in s.workers && Idle(k, alive) && k.pinned == pin) ==>
      Acquire(cfg, s, pin, alive).Some? && Acquire(cfg, s, pin, alive).value.1 == s
  {
    FirstIdleExists(s.workers, alive, false, pin);
    FirstIdleExists(s.workers, alive, true, None);
    hide Spawn, Retire;
  }

  // ----- handshake, then drop or send -----

  /** The handshake of a queued task succeeds or finds it cancelled; it never raises. */
  lemma HandshakeNeverRaises(cfg: Config, s: State, w: Work)
    requires Inv(cfg, s) && w in s.pending
    ensures w.id in s.futures && w.id in s.log && !Handshake(s, w).broken
    ensures QueuedTask(cfg, w, s.futures[w.id], s.log[w.id])
  {
    assert w.id in Ids(s.pending);
    assert TaskOk(cfg, s, w.id);
  }

  /** A task found cancelled at the handshake. */
  function Abandoned(s: State, w: Work): State {
    var s' := Handshake(s, w);
    s'.(pending := Without(s'.pending, {w.id}), finished := s'.finished + {w.id})
  }

  /** The handshake touches one future and its history. */
  lemma HandshakeFrame(s: State, w: Work)
    requires s.log.Keys == s.futures.Keys
    ensures var h := Handshake(s, w);
      && h == s.(futures := h.futures, log := h.log, broken := h.broken)
      && h.futures.Keys == s.futures.Keys && h.log.Keys == s.log.Keys
      && (forall i :: i in s.futures && i != w.id ==> h.futures[i] == s.futures[i] && h.log[i] == s.log[i])
  {
  }

  lemma AbandonKeepsPlaces(s: State, w: Work)
    requires Places(s) && w in s.pending
    ensures Places(Abandoned(s, w))
  {
    HandshakeFrame(s, w);
    hide Handshake;
    assert w.id in Ids(s.pending);
    WithoutKeepsDistinct(s.pending, {w.id});
  }

  lemma AbandonKeepsTasks(cfg: Config, s: State, w: Work)
    requires Places(s) && TasksOk(cfg, s) && w in s.pending && Places(Abandoned(s, w))
    requires w.id in s.futures && QueuedTask(cfg, w, s.futures[w.id], s.log[w.id])
    requires !w.runningNotified && s.futures[w.id].Cancelled?
    ensures TasksOk(cfg, Abandoned(s, w))
  {
    var s' := Abandoned(s, w);
    HandshakeFrame(s, w);
    assert FinishedTask(cfg, s'.futures[w.id], s'.log[w.id]) && !s'.broken;
    hide Handshake;
    ElsewhereSuffices(cfg, s', w.id);
    forall i | i in s'.futures && i != w.id ensures Untouched(s, s', i) {
    }
    TasksFrame(cfg, s, s');
  }

  lemma AbandonKeepsInv(cfg: Config, s: State, w: Work)
    requires Inv(cfg, s) && w in s.pending && !w.runningNotified && w.id in s.futures && s.futures[w.id].Cancelled?
    ensures Inv(cfg, Abandoned(s, w))
  {
    hide TasksOk;
    HandshakeNeverRaises(cfg, s, w);
    HandshakeFrame(s, w);
    AbandonKeepsPlaces(s, w);
    AbandonKeepsTasks(cfg, s, w);
    hide Handshake;
    WorkersFrame(cfg, s, Abandoned(s, w));
  }

  function Sending(s: State, w: Work, gpu: Option<int>, k: int, now: real): State {
    Send(Handshake(s, w), w, gpu, k, now)
  }

  /** `s'` has `w` in flight as `sent` instead of queued. */
  ghost predicate TakesOff(s: State, s': State, w: Work, sent: Work) {
    && w in s.pending && sent.id == w.id
    && s'.pending == Without(s.pending, {w.id}) && s'.inFlight == s.inFlight + [sent]
    && s'.held == s.held && s'.finished == s.finished && s'.dropped == s.dropped
    && s'.futures.Keys == s.futures.Keys && s'.log.Keys == s.log.Keys
    && (forall i :: i in s.futures && i in s.log && i != w.id ==>
          s'.futures[i] == s.futures[i] && s'.log[i] == s.log[i])
  }

  lemma SendingTakesOff(s: State, w: Work, gpu: Option<int>, k: int, now: real)
    requires s.log.Keys == s.futures.Keys && w in s.pending
    ensures TakesOff(s, Sending(s, w, gpu, k, now), w, Started(w, gpu, k, now))
    ensures Sending(s, w, gpu, k, now).store == s.store
  {
    HandshakeFrame(s, w);
    hide Handshake, Without;
  }

  lemma SendKeepsPlaces(s: State, s': State, w: Work, sent: Work)
    requires Places(s) && TakesOff(s, s', w, sent)
    ensures Places(s')
  {
    SendMovesIds(s, w, sent);
    hide NoDup, Ids, Without;
    MovedIds(Ids(s.pending), s.held.Keys, s.finished, Ids(s.inFlight), s.dropped, {w.id});
  }

  lemma SendMovesIds(s: State, w: Work, sent: Work)
    requires NoDup(s.pending) && NoDup(s.inFlight) && Ids(s.pending) !! Ids(s.inFlight)
    requires w in s.pending && sent.id == w.id
    ensures w.id in Ids(s.pending) && NoDup(Without(s.pending, {w.id})) && NoDup(s.inFlight + [sent])
    ensures Ids(Without(s.pending, {w.id})) == Ids(s.pending) - {w.id}
    ensures Ids(s.inFlight + [sent]) == Ids(s.inFlight) + {w.id}
  {
    assert w.id in Ids(s.pending);
    hide Ids, NoDup;
    WithoutKeepsDistinct(s.pending, {w.id});
    AppendKeepsDistinct(s.inFlight, sent);
  }

  lemma AppendKeepsDistinct(ws: seq<Work>, w: Work)
    requires NoDup(ws) && w.id !in Ids(ws)
    ensures NoDup(ws + [w]) && Ids(ws + [w]) == Ids(ws) + {w.id}
  {
    IdsAppend(ws, [w]);
    assert Ids([w]) == {w.id};
    forall i | 0 <= i < |ws| ensures ws[i].id != w.id {
      assert ws[i] in ws;
    }
  }

  lemma SendKeepsTasks(cfg: Config, s: State, s': State, w: Work, sent: Work)
    requires Places(s) && TasksOk(cfg, s) && TakesOff(s, s', w, sent) && Places(s') && !s'.broken
    requires w.id in s'.futures && SentTask(cfg, sent, s'.futures[w.id], s'.log[w.id]) && !sent.resultIgnored
    ensures TasksOk(cfg, s')
  {
    assert sent in s'.inFlight;
    SentSuffices(cfg, s', sent);
    forall i | i in s'.futures && i != w.id ensures Untouched(s, s', i) {
    }
    TasksFrame(cfg, s, s');
  }

  lemma SentIsRunning(cfg: Config, s: State, w: Work, gpu: Option<int>, k: int, now: real)
    requires w.id in s.futures && w.id in s.log && QueuedTask(cfg, w, s.futures[w.id], s.log[w.id]) && !s.broken
    requires w.runningNotified || s.futures[w.id].Queued?
    ensures var s' := Sending(s, w, gpu, k, now);
      && !s'.broken && w.id in s'.futures && w.id in s'.log && !Started(w, gpu, k, now).resultIgnored
      && SentTask(cfg, Started(w, gpu, k, now), s'.futures[w.id], s'.log[w.id])
  {
  }

  lemma SendKeepsWorkers(cfg: Config, s: State, w: Work, gpu: Option<int>, k: int, now: real)
    requires Places(s) && WorkersOk(cfg, s) && w in s.pending && HasIdle(s, k, gpu)
    ensures WorkersOk(cfg, Sending(s, w, gpu, k, now))
  {
    HandshakeFrame(s, w);
    hide Handshake;
    var s' := Sending(s, w, gpu, k, now);
    var idle :| idle in s.workers && idle.id == k && idle.current == None && idle.pinned == gpu;
    SameIdSameWorker(s.workers, idle, FindWorker(s.workers, k).value);
    BusyWorkersOk(cfg, s, s', w, idle, Started(w, gpu, k, now));
  }

  /** An idle worker takes a queued task on. */
  lemma BusyWorkersOk(cfg: Config, s: State, s': State, w: Work, idle: Worker, sent: Work)
    requires Places(s) && WorkersOk(cfg, s) && w in s.pending && idle in s.workers && idle.current == None
    requires s'.workers == Replace(s.workers, idle.(current := Some(w.id)))
    requires s'.dead == s.dead && s'.retiring == s.retiring && s'.nextWorker == s.nextWorker
    requires s'.stopping == s.stopping && s'.dropped == s.dropped && s'.held == s.held
    requires s'.futures.Keys == s.futures.Keys && s'.pending == Without(s.pending, {w.id})
    requires sent.id == w.id && sent.worker == Some(idle.id) && sent.gpu == idle.pinned
      && s'.inFlight == s.inFlight + [sent]
    ensures WorkersOk(cfg, s')
  {
    var busy := idle.(current := Some(w.id));
    ReplaceFacts(s.workers, idle, busy);
    assert w.id in Ids(s.pending);
    assert forall v :: v in s.inFlight ==> v.id in Ids(s.inFlight);
    assert Ids(s'.pending) <= Ids(s.pending);
    assert w.id !in Ids(s'.pending);
    forall j | j in Carriers(s') ensures CurrentOk(s', j) && (j.stopped ==> s'.stopping) {
      if j == busy {
        assert idle in Carriers(s);
      } else {
        assert j in Carriers(s) && CurrentOk(s, j);
      }
    }
    forall v | v in s'.inFlight ensures Carried(s', v) {
      if v == sent {
        assert busy in Carriers(s');
      } else {
        CarrierStays(s, v, idle, s');
      }
    }
  }

  lemma SendKeepsInv(cfg: Config, s: State, w: Work, gpu: Option<int>, k: int, now: real)
    requires Inv(cfg, s) && w in s.pending && HasIdle(s, k, gpu)
    requires w.runningNotified || (w.id in s.futures && s.futures[w.id].Queued?)
    ensures Inv(cfg, Sending(s, w, gpu, k, now))
  {
    hide WorkersOk, QueuedTask, SentTask, Sending;
    var s', sent := Sending(s, w, gpu, k, now), Started(w, gpu, k, now);
    HandshakeNeverRaises(cfg, s, w);
    SendingTakesOff(s, w, gpu, k, now);
    SentIsRunning(cfg, s, w, gpu, k, now);
    SendKeepsPlaces(s, s', w, sent);
    SendKeepsTasks(cfg, s, s', w, sent);
    SendKeepsWorkers(cfg, s, w, gpu, k, now);
  }

  /** What carrying out one decision comes to. */
  datatype Outcome = Stayed | Sent(acquired: State, work: Work, worker: int) | Gone(acquired: State, work: Work)

  lemma ShipOutcome(cfg: Config, s: State, d: Decision, alive: set<int>, now: real) returns (o: Outcome)
    requires Inv(cfg, s)
    ensures Inv(cfg, Ship(cfg, s, d, alive, now))
    ensures o.Stayed? ==> Ship(cfg, s, d, alive, now) == s
    ensures o.Stayed? <==> Find(s.pending, d.pendingId) == None || Acquire(cfg, s, d.gpu, alive) == None
    ensures !o.Stayed? ==>
      o.work in s.pending && o.work.id == d.pendingId && SameTasks(s, o.acquired) && o.acquired.store == s.store
    ensures o.Sent? ==>
      && Ship(cfg, s, d, alive, now) == Sending(o.acquired, o.work, d.gpu, o.worker, now)
      && Inv(cfg, o.acquired) && HasIdle(o.acquired, o.worker, d.gpu) && o.work.id in o.acquired.futures
      && (o.work.runningNotified || o.acquired.futures[o.work.id].Queued?)
    ensures o.Gone? ==>
      && Ship(cfg, s, d, alive, now) == Abandoned(o.acquired, o.work)
      && Inv(cfg, o.acquired) && o.work.id in o.acquired.futures
      && !o.work.runningNotified && o.acquired.futures[o.work.id].Cancelled?
  {
    hide Inv, Acquire, Send;
    var found := Find(s.pending, d.pendingId);
    var acquired := Acquire(cfg, s, d.gpu, alive);
    o := Stayed;
    if found.Some? && acquired.Some? {
      var w, k, s1 := found.value, acquired.value.0, acquired.value.1;
      AcquireKeepsInv(cfg, s, d.gpu, alive);
      HandshakeNeverRaises(cfg, s1, w);
      if !w.runningNotified && s1.futures[w.id].Cancelled? {
        AbandonKeepsInv(cfg, s1, w);
        o := Gone(s1, w);
      } else {
        QueuedFuture(cfg, s1, w);
        SendKeepsInv(cfg, s1, w, d.gpu, k, now);
        o := Sent(s1, w, k);
      }
    }
  }

  lemma QueuedFuture(cfg: Config, s: State, w: Work)
    requires w.id in s.futures && w.id in s.log && QueuedTask(cfg, w, s.futures[w.id], s.log[w.id])
    ensures w.runningNotified || s.futures[w.id].Queued? || s.futures[w.id].Cancelled?
  {
  }

  lemma {:induction false} ShipAllKeepsInv(cfg: Config, s: State, decisions: seq<Decision>, env: Env)
    requires Inv(cfg, s)
    ensures Inv(cfg, ShipAll(cfg, s, decisions, env))
  {
    hide Inv, Ship;
    if decisions != [] {
      var n := |decisions| - 1;
      ShipAllKeepsInv(cfg, s, decisions[..n], env);
      var _ := ShipOutcome(cfg, ShipAll(cfg, s, decisions[..n], env), decisions[n], AliveAt(env, n), env.now);
    }
  }

  lemma IndexIsIrrelevant(cfg: Config, s: State, next: int)
    requires Inv(cfg, s)
    ensures Inv(cfg, s.(nextGpu := next))
  {
    var s' := s.(nextGpu := next);
    SameTasksKeepPlacesAndTasks(cfg, s, s');
    WorkersFrame(cfg, s, s');
  }

  lemma DispatchKeepsInv(cfg: Config, s: State, env: Env)
    requires Inv(cfg, s)
    ensures Inv(cfg, Dispatch(cfg, s, env))
  {
    hide Inv, Prepared, Surveyed, ShipAll, PlanOf;
    PreparedKeepsInv(cfg, s, env);
    var ready := Prepared(cfg, s, env);
    SurveyedKeepsInv(cfg, ready, env);
    var seen := Surveyed(ready, env);
    var plan := PlanOf(cfg, seen, env);
    IndexIsIrrelevant(cfg, seen, plan.rr);
    ShipAllKeepsInv(cfg, seen.(nextGpu := plan.rr), Decisions(plan.admitted), env);
  }

  // ----- what is shipped is what was planned -----

  /** `w` was sent to carry out placement `a`. */
  ghost predicate SentFor(w: Work, a: Placement) {
    EntryOf(w) == a.task && w.gpu == a.gpu && w.observedMemory == 0.0 && w.observedVram == 0.0
  }

  /** `sent` carries out some of `admitted`, in order. */
  ghost predicate SentFrom(sent: seq<Work>, admitted: seq<Placement>)
    decreases |admitted|
  {
    if admitted == [] then sent == []
    else
      var a := admitted[|admitted| - 1];
      || SentFrom(sent, admitted[..|admitted| - 1])
      || (sent != [] && SentFor(sent[|sent| - 1], a) && SentFrom(sent[..|sent| - 1], admitted[..|admitted| - 1]))
  }

  /** Every placement is about a task of the queue. */
  ghost predicate AboutQueue(ws: seq<Work>, admitted: seq<Placement>) {
    forall i :: 0 <= i < |admitted| ==> InQueue(ws, admitted[i].task)
  }

  ghost predicate InQueue(ws: seq<Work>, task: PendingEntry) {
    exists w :: w in ws && EntryOf(w) == task
  }

  lemma DecisionsPrefix(admitted: seq<Placement>, n: nat)
    requires n <= |admitted|
    ensures Decisions(admitted)[..n] == Decisions(admitted[..n])
  {
  }

  lemma SentFromSnoc(sent: seq<Work>, admitted: seq<Placement>, w: Work)
    requires admitted != [] && SentFrom(sent, admitted[..|admitted| - 1])
    ensures SentFrom(sent, admitted)
    ensures SentFor(w, admitted[|admitted| - 1]) ==> SentFrom(sent + [w], admitted)
  {
    assert (sent + [w])[..|sent|] == sent;
  }

  /** One decision: nothing more is in flight, or the task it is about is. */
  lemma ShipOneShips(cfg: Config, s: State, ws: seq<Work>, a: Placement, alive: set<int>, now: real)
    returns (sent: seq<Work>)
    requires Inv(cfg, s) && (forall w :: w in s.pending ==> w in ws) && NoDup(ws)
    requires InQueue(ws, a.task)
    ensures var s' := Ship(cfg, s, Decision(a.task.id, a.gpu), alive, now);
      && s'.inFlight == s.inFlight + sent
      && (sent == [] || (|sent| == 1 && SentFor(sent[0], a) && sent[0].startedAt == Some(now)))
      && (forall w :: w in s'.pending ==> w in s.pending) && s'.store == s.store
  {
    hide Inv, Ship, Handshake, Sending, Abandoned, HasIdle, NoDup, InQueue;
    var d := Decision(a.task.id, a.gpu);
    var o := ShipOutcome(cfg, s, d, alive, now);
    sent := [];
    if o.Sent? {
      InvKeys(cfg, o.acquired);
      SendingTakesOff(o.acquired, o.work, d.gpu, o.worker, now);
      StartedIsPlanned(ws, o.work, a, o.worker, now);
      sent := [Started(o.work, d.gpu, o.worker, now)];
    } else if o.Gone? {
      InvKeys(cfg, o.acquired);
      AbandonedFrame(o.acquired, o.work);
    }
  }

  lemma InvKeys(cfg: Config, s: State)
    requires Inv(cfg, s)
    ensures s.log.Keys == s.futures.Keys
  {
  }

  /** A task of the queue with the id of a placement, once started, carries that placement out. */
  lemma StartedIsPlanned(ws: seq<Work>, w: Work, a: Placement, k: int, now: real)
    requires NoDup(ws) && w in ws && w.id == a.task.id && InQueue(ws, a.task)
    ensures var sent := Started(w, a.gpu, k, now); SentFor(sent, a) && sent.startedAt == Some(now)
  {
    var w0 :| w0 in ws && EntryOf(w0) == a.task;
    SameIdSameWork(ws, w, w0);
  }

  lemma AbandonedFrame(s: State, w: Work)
    requires s.log.Keys == s.futures.Keys
    ensures var s' := Abandoned(s, w);
      && s'.inFlight == s.inFlight && s'.store == s.store && (forall v :: v in s'.pending ==> v in s.pending)
  {
    HandshakeFrame(s, w);
    hide Handshake;
  }

  ghost predicate StartedAt(sent: seq<Work>, now: real) {
    forall i :: 0 <= i < |sent| ==> sent[i].startedAt == Some(now)
  }

  /** Carrying out a plan appends to the in-flight table exactly what was sent for it. */
  lemma {:induction false} ShipAllShips(cfg: Config, s: State, admitted: seq<Placement>, env: Env)
    returns (sent: seq<Work>)
    requires Inv(cfg, s) && AboutQueue(s.pending, admitted)
    ensures var s' := ShipAll(cfg, s, Decisions(admitted), env);
      && s'.inFlight == s.inFlight + sent && SentFrom(sent, admitted) && StartedAt(sent, env.now)
      && (forall w :: w in s'.pending ==> w in s.pending) && s'.store == s.store
  {
    hide Inv, Ship, SentFrom;
    sent := [];
    if admitted == [] {
      assert SentFrom([], []) by { NothingSent(); }
    } else {
      var n := |admitted| - 1;
      AboutQueuePrefix(s.pending, admitted, n);
      sent := ShipAllShips(cfg, s, admitted[..n], env);
      DecisionsPrefix(admitted, n);
      var mid := ShipAll(cfg, s, Decisions(admitted[..n]), env);
      ShipAllKeepsInv(cfg, s, Decisions(admitted[..n]), env);
      QueueIsDistinct(cfg, s);
      var more := ShipOneShips(cfg, mid, s.pending, admitted[n], AliveAt(env, n), env.now);
      SentFromSnoc(sent, admitted, if more == [] then s.pending[0] else more[0]);
      assert s.inFlight + (sent + more) == (s.inFlight + sent) + more;
      assert more != [] ==> more == [more[0]];
      assert more == [] ==> sent + more == sent;
      sent := sent + more;
    }
  }

  lemma NothingSent()
    ensures SentFrom([], [])
  {
  }

  lemma AboutQueuePrefix(ws: seq<Work>, admitted: seq<Placement>, n: nat)
    requires AboutQueue(ws, admitted) && n <= |admitted|
    ensures AboutQueue(ws, admitted[..n])
    ensures admitted != [] ==> ws != []
  {
    if admitted != [] {
      assert InQueue(ws, admitted[0].task);
    }
  }

  lemma QueueIsDistinct(cfg: Config, s: State)
    requires Inv(cfg, s)
    ensures NoDup(s.pending)
  {
  }

  lemma {:induction false} SentFromMembers(sent: seq<Work>, admitted: seq<Placement>)
    requires SentFrom(sent, admitted)
    ensures |sent| <= |admitted|
    ensures forall w :: w in sent ==> exists i :: 0 <= i < |admitted| && SentFor(w, admitted[i])
    decreases |admitted|
  {
    if admitted != [] {
      var n := |admitted| - 1;
      var pre := admitted[..n];
      if SentFrom(sent, pre) {
        SentFromMembers(sent, pre);
        forall w | w in sent ensures exists i :: 0 <= i < |admitted| && SentFor(w, admitted[i]) {
          var i :| 0 <= i < |pre| && SentFor(w, pre[i]);
          assert SentFor(w, admitted[i]);
        }
      } else {
        SentFromMembers(sent[..|sent| - 1], pre);
        assert sent == sent[..|sent| - 1] + [sent[|sent| - 1]];
        forall w | w in sent ensures exists i :: 0 <= i < |admitted| && SentFor(w, admitted[i]) {
          if w in sent[..|sent| - 1] {
            var i :| 0 <= i < |pre| && SentFor(w, pre[i]);
            assert SentFor(w, admitted[i]);
          } else {
            assert SentFor(w, admitted[n]);
          }
        }
      }
    }
  }
}
