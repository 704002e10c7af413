/** A dead worker's last words: its result queue is drained before its task is given up. */
module Draining {
  import opened Quantities
  import opened Profiles
  import opened Stores
  import opened Admission
  import opened Planning
  import opened ExecutorState
  import opened ExecutorInvariants
  import opened ExecutorDispatch
  import opened ExecutorRuns
  import opened ExecutorProgress

  /** A message in a worker's result queue. */
  datatype Message = Message(id: string, worker: int, ok: bool, observation: Observation)

  /** What handling a result does from start to end; one that finds its task no longer in
      flight is stale and only frees its worker. */
  function Process(cfg: Config, s: State, m: Message): State {
    var taken := TakeResult(cfg, s, m.id, m.worker);
    if Find(s.inFlight, m.id) == None then taken else FinishResult(taken, m.id, m.ok, m.observation)
  }

  /** Every message of a queue processed, first to last. */
  function Drain(cfg: Config, s: State, messages: seq<Message>): State {
    if messages == [] then s
    else Process(cfg, Drain(cfg, s, messages[..|messages| - 1]), messages[|messages| - 1])
  }

  /** The verdict of the first message about `id`. */
  function FirstMessage(messages: seq<Message>, id: string): Option<bool> {
    if messages == [] then None
    else
      var earlier, last := FirstMessage(messages[..|messages| - 1], id), messages[|messages| - 1];
      if earlier.Some? then earlier else if last.id == id then Some(last.ok) else None
  }

  lemma ProcessKeepsInv(cfg: Config, s: State, m: Message)
    requires Inv(cfg, s)
    ensures Inv(cfg, Process(cfg, s, m))
  {
    hide Inv, TakeResult, FinishResult;
    TakeResultKeepsInv(cfg, s, m.id, m.worker);
    FinishResultKeepsInv(cfg, TakeResult(cfg, s, m.id, m.worker), m.id, m.ok, m.observation);
  }

  /** One message settles its task if that was in flight, and moves no other. */
  lemma ProcessMoves(cfg: Config, s: State, m: Message, id: string)
    requires Inv(cfg, s)
    ensures LifeOf(Process(cfg, s, m), id) ==
      if id == m.id && StageOf(s, id) == Flying
      then Life(Over, LifeOf(s, id).sends, Some(Finished(m.ok)))
      else LifeOf(s, id)
  {
    InvPlaces(cfg, s);
    hide Inv, LifeOf, TakeResult, FinishResult, StageOf;
    var taken := TakeResult(cfg, s, m.id, m.worker);
    TakeResultKeepsInv(cfg, s, m.id, m.worker);
    TakeResultMoves(cfg, s, m.id, m.worker, id);
    FlyingInTable(s, id);
    FlyingInTable(s, m.id);
    FinishResultMoves(cfg, taken, m.id, m.ok, m.observation, id);
    StageOfLife(s, id);
    StageOfLife(taken, id);
    FoundInTable(s.inFlight, m.id);
  }

  lemma FoundInTable(ws: seq<Work>, id: string)
    ensures Find(ws, id).Some? <==> id in Ids(ws)
  {
  }

  lemma {:induction false} DrainKeepsInv(cfg: Config, s: State, messages: seq<Message>)
    requires Inv(cfg, s)
    ensures Inv(cfg, Drain(cfg, s, messages))
  {
    hide Inv, Process;
    if messages != [] {
      var n := |messages| - 1;
      DrainKeepsInv(cfg, s, messages[..n]);
      ProcessKeepsInv(cfg, Drain(cfg, s, messages[..n]), messages[n]);
    }
  }

  /** Every task in flight with a message in the queue, current or earlier, is settled by its
      first message; every other task is left as it is. */
  lemma {:induction false} DrainDelivers(cfg: Config, s: State, messages: seq<Message>, id: string)
    requires Inv(cfg, s)
    ensures var verdict := FirstMessage(messages, id);
      LifeOf(Drain(cfg, s, messages), id) ==
        if verdict.Some? && StageOf(s, id) == Flying then Life(Over, LifeOf(s, id).sends, Some(Finished(verdict.value)))
        else LifeOf(s, id)
  {
    hide Inv, LifeOf, StageOf, Process;
    StageOfLife(s, id);
    if messages != [] {
      var n := |messages| - 1;
      var mid := Drain(cfg, s, messages[..n]);
      DrainDelivers(cfg, s, messages[..n], id);
      DrainKeepsInv(cfg, s, messages[..n]);
      StageOfLife(mid, id);
      ProcessMoves(cfg, mid, messages[n], id);
    }
  }

  lemma TakeResultLeavesTheDead(cfg: Config, s: State, id: string, worker: int)
    ensures TakeResult(cfg, s, id, worker).dead == s.dead
  {
    hide FreeWorker;
    var found := Find(s.inFlight, id);
    FreeWorkerKeepsTasks(cfg, s, id, worker);
    if found.Some? {
      FreeWorkerKeepsTasks(cfg, Popped(s, found.value, Held(found.value, ByResult)), id, worker);
      FreeWorkerKeepsTasks(cfg, s.(inFlight := Without(s.inFlight, {id}), finished := s.finished + {id}), id, worker);
    }
  }

  lemma ProcessLeavesTheDead(cfg: Config, s: State, m: Message)
    ensures Process(cfg, s, m).dead == s.dead
  {
    hide TakeResult, Record;
    TakeResultLeavesTheDead(cfg, s, m.id, m.worker);
  }

  lemma {:induction false} DrainLeavesTheDead(cfg: Config, s: State, messages: seq<Message>)
    ensures Drain(cfg, s, messages).dead == s.dead
  {
    hide Process;
    if messages != [] {
      var n := |messages| - 1;
      DrainLeavesTheDead(cfg, s, messages[..n]);
      ProcessLeavesTheDead(cfg, Drain(cfg, s, messages[..n]), messages[n]);
    }
  }

  lemma DeadIsFound(cfg: Config, s: State, k: Worker)
    requires Inv(cfg, s) && k in s.dead
    ensures FindWorker(s.dead, k.id) == Some(k) && !k.poisoned
  {
    assert k.id in WorkerIds(s.dead);
    SameIdSameWorker(s.dead, k, FindWorker(s.dead, k.id).value);
    assert k in Carriers(s) && CurrentOk(s, k);
  }

  /** A result delivered before death is never retried.  If a dead worker's queue still holds a
      result for the task it was on, draining and then giving up the worker settles that task
      with that result, queues nothing, and moves no task that has no message: there is no crash
      left to handle. */
  lemma DeliveredBeforeDeath(cfg: Config, s: State, k: Worker, messages: seq<Message>, id: string)
    requires Inv(cfg, s) && k in s.dead && k.current == Some(id) && StageOf(s, id) == Flying
    requires FirstMessage(messages, id).Some?
    ensures var drained := Drain(cfg, s, messages);
      var s' := TakeLost(drained, k.id);
      && !k.poisoned
      && LifeOf(s', id) == Life(Over, LifeOf(s, id).sends, Some(Finished(FirstMessage(messages, id).value)))
      && (forall i :: LifeOf(s', i) == LifeOf(drained, i))
  {
    hide Inv, LifeOf, TakeLost;
    var drained := Drain(cfg, s, messages);
    DrainDelivers(cfg, s, messages, id);
    DrainKeepsInv(cfg, s, messages);
    DrainLeavesTheDead(cfg, s, messages);
    hide Drain;
    DeadIsFound(cfg, drained, k);
    InvPlaces(cfg, drained);
    forall i ensures LifeOf(TakeLost(drained, k.id), i) == LifeOf(drained, i) {
      TakeLostMoves(cfg, drained, k.id, i);
      FlyingInTable(drained, i);
    }
  }

  /** Without such a message the worker's task is lost with it: it goes to the crash handler,
      or, once all workers have been told to stop, nowhere: its future is never settled. */
  lemma LostWithoutMessage(cfg: Config, s: State, k: Worker, messages: seq<Message>, id: string)
    requires Inv(cfg, s) && k in s.dead && k.current == Some(id) && StageOf(s, id) == Flying
    requires FirstMessage(messages, id) == None
    ensures var s' := TakeLost(Drain(cfg, s, messages), k.id);
      && LifeOf(s', id) == LifeOf(s, id).(stage := if k.stopped then Over else Handled(ByCrash))
      && (k.stopped ==> s.stopping && id in s'.dropped && LifeOf(s', id).future == Some(Running))
  {
    hide Inv, LifeOf, TakeLost;
    var drained := Drain(cfg, s, messages);
    DrainDelivers(cfg, s, messages, id);
    DrainKeepsInv(cfg, s, messages);
    DrainLeavesTheDead(cfg, s, messages);
    hide Drain;
    DeadIsFound(cfg, drained, k);
    InvPlaces(cfg, drained);
    FlyingInTable(drained, id);
    StageOfLife(s, id);
    TakeLostMoves(cfg, drained, k.id, id);
    if k.stopped { DroppedRunning(cfg, s, drained, k, id); }
  }

  lemma DroppedRunning(cfg: Config, s: State, drained: State, k: Worker, id: string)
    requires Inv(cfg, s) && Inv(cfg, drained) && k in s.dead && k.current == Some(id) && k.stopped
    requires FindWorker(drained.dead, k.id) == Some(k) && id in Ids(drained.inFlight) && StageOf(s, id) == Flying
    ensures s.stopping && id in TakeLost(drained, k.id).dropped && LifeOf(s, id).future == Some(Running)
  {
    FlyingIsRunning(cfg, s, id);
    StoppedMeansStopping(cfg, s, k);
    hide Inv, LifeOf, Without, WithoutWorkers;
    FoundInTable(drained.inFlight, id);
  }

  lemma FlyingIsRunning(cfg: Config, s: State, id: string)
    requires Inv(cfg, s) && StageOf(s, id) == Flying
    ensures LifeOf(s, id).future == Some(Running)
  {
    hide WorkersOk;
    assert TaskOk(cfg, s, id);
  }

  lemma StoppedMeansStopping(cfg: Config, s: State, k: Worker)
    requires Inv(cfg, s) && k in s.dead && k.stopped
    ensures s.stopping
  {
    assert k in Carriers(s);
  }

  // ----- burying the dead -----

  /** What handling a dead worker does from start to end. */
  function Bury(cfg: Config, s: State, k: Worker, messages: seq<Message>, exitCode: Option<int>): State {
    var taken := TakeLost(if k.poisoned then s else Drain(cfg, s, messages), k.id);
    if k.current == None then taken else FinishLost(cfg, taken, k.current.value, exitCode)
  }

  /** The queues and exit codes a worker left behind. */
  datatype Remains = Remains(messages: seq<Message>, exitCode: Option<int>)

  function BuryAll(cfg: Config, s: State, lost: seq<Worker>, remains: map<int, Remains>): State {
    if lost == [] then s
    else
      var k := lost[|lost| - 1];
      var s' := BuryAll(cfg, s, lost[..|lost| - 1], remains);
      var left := RemainsOf(remains, k);
      Bury(cfg, s', k, left.messages, left.exitCode)
  }

  function RemainsOf(remains: map<int, Remains>, k: Worker): Remains {
    if k.id in remains then remains[k.id] else Remains([], None)
  }

  /** The readable queues of reaped workers, drained. */
  function ReapAll(cfg: Config, s: State, reaped: seq<Worker>, remains: map<int, Remains>): State {
    if reaped == [] then s
    else
      var k := reaped[|reaped| - 1];
      var s' := ReapAll(cfg, s, reaped[..|reaped| - 1], remains);
      if k.poisoned then s' else Drain(cfg, s', RemainsOf(remains, k).messages)
  }

  /** One sweep over the workers: the dead leave the pool, the retired that have exited are
      reaped, and then what each left behind is seen to. */
  function Sweep(cfg: Config, s: State, gone: set<int>, remains: map<int, Remains>): State {
    var reaped, lost := PickWorkers(s.retiring, gone, true), PickWorkers(s.workers, gone, true);
    BuryAll(cfg, ReapAll(cfg, CheckWorkers(s, gone), reaped, remains), lost, remains)
  }

  /** The task of a worker given up is in no crash handler's hands yet. */
  lemma NotYetLost(cfg: Config, s: State, k: Worker)
    requires Inv(cfg, s) && k in s.dead && k.current.Some? && k.current.value in s.held
    ensures !s.held[k.current.value].handler.ByCrash?
  {
    assert k in Carriers(s) && CurrentOk(s, k);
  }

  // ----- what burying comes to -----

  lemma FreeingKeepsFlight(cfg: Config, s: State, id: string, worker: int)
    ensures FreeWorker(cfg, s, id, worker).inFlight == s.inFlight
  {
    FreeWorkerKeepsTasks(cfg, s, id, worker);
    hide FreeWorker;
  }

  lemma ProcessKeepsFlight(cfg: Config, s: State, m: Message, w: Work)
    requires w in s.inFlight && w.id != m.id
    ensures w in Process(cfg, s, m).inFlight
  {
    hide FreeWorker, Record, Without;
    var found := Find(s.inFlight, m.id);
    FreeingKeepsFlight(cfg, s, m.id, m.worker);
    if found.Some? {
      FreeingKeepsFlight(cfg, Popped(s, found.value, Held(found.value, ByResult)), m.id, m.worker);
      var ignored := s.(inFlight := Without(s.inFlight, {m.id}), finished := s.finished + {m.id});
      FreeingKeepsFlight(cfg, ignored, m.id, m.worker);
    }
  }

  /** A task without a message stays in flight as it is. */
  lemma {:induction false} DrainKeepsFlight(cfg: Config, s: State, messages: seq<Message>, w: Work)
    requires w in s.inFlight && FirstMessage(messages, w.id) == None
    ensures w in Drain(cfg, s, messages).inFlight
  {
    hide Process;
    if messages != [] {
      var n := |messages| - 1;
      DrainKeepsFlight(cfg, s, messages[..n], w);
      ProcessKeepsFlight(cfg, Drain(cfg, s, messages[..n]), messages[n], w);
    }
  }

  /** What handling a dead worker makes of the task it was on.  A result it left in its queue decides;
      without one the task is dropped if the worker had been told to stop, queued again after a kill by
      signal 9 within the allowed retries, and otherwise failed. */
  lemma BurySettles(cfg: Config, s: State, k: Worker, messages: seq<Message>, exitCode: Option<int>, w: Work)
    requires Inv(cfg, s) && k in s.dead && k.current == Some(w.id) && w in s.inFlight
    ensures var sends := LifeOf(s, w.id).sends;
      LifeOf(Bury(cfg, s, k, messages, exitCode), w.id) ==
        match FirstMessage(messages, w.id)
        case Some(ok) => Life(Over, sends, Some(Finished(ok)))
        case None =>
          if k.stopped then Life(Over, sends, Some(Running))
          else if w.retries < cfg.maxRetries && (exitCode == Some(-9) || exitCode == Some(137))
          then Life(Waiting, sends, Some(Running))
          else Life(Over, sends, Some(Finished(false)))
  {
    var id := w.id;
    InvPlaces(cfg, s);
    FlyingInTable(s, id);
    StageOfLife(s, id);
    assert id in Ids(s.inFlight);
    FlyingIsRunning(cfg, s, id);
    DeadIsFound(cfg, s, k);
    var drained := Drain(cfg, s, messages);
    var taken := TakeLost(drained, k.id);
    DrainKeepsInv(cfg, s, messages);
    TakeLostKeepsInv(cfg, drained, k.id);
    hide Inv, LifeOf, StageOf, TakeLost, FinishLost, Drain;
    StageOfLife(taken, id);
    if FirstMessage(messages, id).Some? {
      DeliveredBeforeDeath(cfg, s, k, messages, id);
      GivingUpTheRest(cfg, taken, id, exitCode);
    } else {
      LostWithoutMessage(cfg, s, k, messages, id);
      DrainKeepsFlight(cfg, s, messages, w);
      DrainLeavesTheDead(cfg, s, messages);
      DeadIsFound(cfg, drained, k);
      if k.stopped {
        GivingUpTheRest(cfg, taken, id, exitCode);
      } else {
        HeldAsLost(cfg, drained, k, w);
        GivingUpTheLost(cfg, taken, id, exitCode);
      }
    }
  }

  /** A task that is not with the crash handler is not touched by it. */
  lemma GivingUpTheRest(cfg: Config, s: State, id: string, exitCode: Option<int>)
    requires Inv(cfg, s) && StageOf(s, id) == Over
    ensures FinishLost(cfg, s, id, exitCode) == s
  {
  }

  lemma HeldAsLost(cfg: Config, s: State, k: Worker, w: Work)
    requires Inv(cfg, s) && FindWorker(s.dead, k.id) == Some(k) && k.current == Some(w.id) && !k.stopped
    requires w in s.inFlight
    ensures var s' := TakeLost(s, k.id); w.id in s'.held && s'.held[w.id] == Held(w, ByCrash)
  {
    assert w.id in Ids(s.inFlight);
    SameIdSameWork(s.inFlight, w, Find(s.inFlight, w.id).value);
    hide Inv, Without, WithoutWorkers, FindWorker;
  }

  lemma GivingUpTheLost(cfg: Config, s: State, id: string, exitCode: Option<int>)
    requires Inv(cfg, s) && id in s.held && s.held[id].handler.ByCrash?
    ensures var a, b := LifeOf(s, id), LifeOf(FinishLost(cfg, s, id, exitCode), id);
      b == if s.held[id].work.retries < cfg.maxRetries && (exitCode == Some(-9) || exitCode == Some(137))
           then a.(stage := Waiting) else Life(Over, a.sends, Some(Finished(false)))
  {
    InvPlaces(cfg, s);
    var w := s.held[id].work;
    RequeueMoves(s, id, id, Record(s.store, w.origin, Crashed(w.estimate.memory)));
    ConcludeMoves(cfg, s, id, false, id);
    assert w.id == id;
    hide Inv, LifeOf, Record, Conclude, Penalized;
  }

  /** What reaped workers left in their readable queues is delivered: a task in flight with a message in
      one of them is settled with one of its messages there, and no other task is touched. */
  lemma {:induction false} ReapDelivers(cfg: Config, s: State, reaped: seq<Worker>, remains: map<int, Remains>,
                                        id: string)
    requires Inv(cfg, s) && forall k :: k in reaped ==> !k.poisoned
    ensures Inv(cfg, ReapAll(cfg, s, reaped, remains))
    ensures var a, b := LifeOf(s, id), LifeOf(ReapAll(cfg, s, reaped, remains), id);
      if a.stage == Flying && exists i :: 0 <= i < |reaped| && LeftMessage(remains, reaped[i], id).Some?
      then exists i :: 0 <= i < |reaped| && LeftMessage(remains, reaped[i], id).Some?
             && b == Life(Over, a.sends, Some(Finished(LeftMessage(remains, reaped[i], id).value)))
      else b == a
  {
    hide Inv, LifeOf, StageOf, Drain;
    if reaped != [] {
      var n := |reaped| - 1;
      var k := reaped[n];
      var mid := ReapAll(cfg, s, reaped[..n], remains);
      ReapDelivers(cfg, s, reaped[..n], remains, id);
      assert forall i :: 0 <= i < n ==> reaped[..n][i] == reaped[i];
      DrainDelivers(cfg, mid, RemainsOf(remains, k).messages, id);
      DrainKeepsInv(cfg, mid, RemainsOf(remains, k).messages);
      StageOfLife(mid, id);
    }
  }

  /** The first message a worker left about the task. */
  function LeftMessage(remains: map<int, Remains>, k: Worker, id: string): Option<bool> {
    FirstMessage(RemainsOf(remains, k).messages, id)
  }
}
