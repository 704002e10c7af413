/** A whole sweep over the workers: what becomes of a task whose worker has died. */
module LastSweep {
  import opened Quantities
  import opened Profiles
  import opened Stores
  import opened Planning
  import opened ExecutorState
  import opened ExecutorInvariants
  import opened ExecutorDispatch
  import opened ExecutorRuns
  import opened ExecutorProgress
  import opened Draining

  /** The task is in flight on the dead worker `k`. */
  ghost predicate Awaits(s: State, k: Worker, w: Work) {
    k in s.dead && k.current == Some(w.id) && w in s.inFlight
  }

  lemma TakeLostKeepsFlight(s: State, worker: int, w: Work)
    requires w in s.inFlight
    requires var k := FindWorker(s.dead, worker); k.Some? ==> k.value.current != Some(w.id)
    ensures w in TakeLost(s, worker).inFlight
  {
    hide WithoutWorkers, FindWorker;
  }

  lemma FinishLostFrame(cfg: Config, s: State, id: string, exitCode: Option<int>)
    ensures var s' := FinishLost(cfg, s, id, exitCode); s'.dead == s.dead && s'.inFlight == s.inFlight
  {
    hide Record, Penalized;
  }

  lemma BuryKeepsInv(cfg: Config, s: State, j: Worker, messages: seq<Message>, exitCode: Option<int>)
    requires Inv(cfg, s)
    ensures Inv(cfg, Bury(cfg, s, j, messages, exitCode))
  {
    hide Inv, Drain, TakeLost, FinishLost;
    DrainKeepsInv(cfg, s, messages);
    TakeLostKeepsInv(cfg, s, j.id);
    TakeLostKeepsInv(cfg, Drain(cfg, s, messages), j.id);
    var taken := TakeLost(if j.poisoned then s else Drain(cfg, s, messages), j.id);
    if j.current.Some? { FinishLostKeepsInv(cfg, taken, j.current.value, exitCode); }
  }

  /** Burying another dead worker, in whose queue there is nothing about the task, leaves it waiting. */
  lemma OthersLeaveWaiting(cfg: Config, s: State, k: Worker, w: Work, j: Worker, messages: seq<Message>,
                           exitCode: Option<int>)
    requires Inv(cfg, s) && Awaits(s, k, w) && j in s.dead && j.id != k.id && FirstMessage(messages, w.id) == None
    ensures Awaits(Bury(cfg, s, j, messages, exitCode), k, w)
    ensures LifeOf(Bury(cfg, s, j, messages, exitCode), w.id) == LifeOf(s, w.id)
    ensures forall i :: i in s.dead && i.id != j.id ==> i in Bury(cfg, s, j, messages, exitCode).dead
  {
    hide Inv, LifeOf, Drain, TakeLost, FinishLost, Awaits;
    DeadIsFound(cfg, s, j);
    AwaitedByOne(cfg, s, k, w, j);
    var drained := Drain(cfg, s, messages);
    DrainLeavesWaiting(cfg, s, k, w, messages);
    var taken := TakeLost(drained, j.id);
    LossLeavesWaiting(cfg, drained, k, w, j);
    if j.current.Some? { EndLeavesWaiting(cfg, taken, k, w, j.current.value, exitCode); }
  }

  lemma DrainLeavesWaiting(cfg: Config, s: State, k: Worker, w: Work, messages: seq<Message>)
    requires Inv(cfg, s) && Awaits(s, k, w) && FirstMessage(messages, w.id) == None
    ensures var s' := Drain(cfg, s, messages);
      Inv(cfg, s') && Awaits(s', k, w) && LifeOf(s', w.id) == LifeOf(s, w.id) && s'.dead == s.dead
  {
    hide Inv, LifeOf, Drain;
    DrainKeepsInv(cfg, s, messages);
    DrainDelivers(cfg, s, messages, w.id);
    DrainKeepsFlight(cfg, s, messages, w);
    DrainLeavesTheDead(cfg, s, messages);
  }

  lemma LossLeavesWaiting(cfg: Config, s: State, k: Worker, w: Work, j: Worker)
    requires Inv(cfg, s) && Awaits(s, k, w) && j in s.dead && j.id != k.id
    ensures var s' := TakeLost(s, j.id);
      && Inv(cfg, s') && Awaits(s', k, w) && LifeOf(s', w.id) == LifeOf(s, w.id)
      && (forall i :: i in s.dead && i.id != j.id ==> i in s'.dead)
  {
    DeadIsFound(cfg, s, j);
    AwaitedByOne(cfg, s, k, w, j);
    hide Inv, LifeOf, TakeLost;
    TakeLostKeepsFlight(s, j.id, w);
    TakeLostMoves(cfg, s, j.id, w.id);
    TakeLostKeepsInv(cfg, s, j.id);
    OthersStayDead(s, j);
  }

  lemma EndLeavesWaiting(cfg: Config, s: State, k: Worker, w: Work, id: string, exitCode: Option<int>)
    requires Inv(cfg, s) && Awaits(s, k, w) && id != w.id
    ensures var s' := FinishLost(cfg, s, id, exitCode);
      Awaits(s', k, w) && LifeOf(s', w.id) == LifeOf(s, w.id) && s'.dead == s.dead
  {
    hide Inv, LifeOf, FinishLost;
    FinishLostMoves(cfg, s, AFinishLost(id, exitCode), w.id);
    AppliedIsFinished(cfg, s, id, exitCode);
    FinishLostFrame(cfg, s, id, exitCode);
  }

  lemma AwaitedByOne(cfg: Config, s: State, k: Worker, w: Work, j: Worker)
    requires Inv(cfg, s) && Awaits(s, k, w) && j in s.dead && j.id != k.id
    ensures j.current != Some(w.id)
  {
    assert j in Carriers(s) && CurrentOk(s, j) && k in Carriers(s) && CurrentOk(s, k);
  }

  lemma OthersStayDead(s: State, j: Worker)
    requires FindWorker(s.dead, j.id) == Some(j)
    ensures forall i :: i in s.dead && i.id != j.id ==> i in TakeLost(s, j.id).dead
  {
    hide Find, Without, FindWorker;
  }

  /** Nor does it touch a task that is settled or queued. */
  lemma OthersLeaveAlone(cfg: Config, s: State, id: string, j: Worker, messages: seq<Message>, exitCode: Option<int>)
    requires Inv(cfg, s) && (StageOf(s, id) == Over || StageOf(s, id) == Waiting)
    ensures LifeOf(Bury(cfg, s, j, messages, exitCode), id) == LifeOf(s, id)
  {
    hide Inv, LifeOf, StageOf, Drain, TakeLost, FinishLost;
    StageOfLife(s, id);
    DrainKeepsInv(cfg, s, messages);
    DrainDelivers(cfg, s, messages, id);
    var drained := if j.poisoned then s else Drain(cfg, s, messages);
    StageOfLife(drained, id);
    InvPlaces(cfg, drained);
    FlyingInTable(drained, id);
    TakeLostMoves(cfg, drained, j.id, id);
    TakeLostKeepsInv(cfg, drained, j.id);
    var taken := TakeLost(drained, j.id);
    StageOfLife(taken, id);
    if j.current.Some? {
      FinishLostMoves(cfg, taken, AFinishLost(j.current.value, exitCode), id);
      AppliedIsFinished(cfg, taken, j.current.value, exitCode);
    }
  }

  lemma AppliedIsFinished(cfg: Config, s: State, id: string, exitCode: Option<int>)
    ensures Apply(cfg, s, AFinishLost(id, exitCode)) == FinishLost(cfg, s, id, exitCode)
  {
  }

  // ----- burying them all -----

  /** What burying its worker makes of the task. */
  function Fate(cfg: Config, a: Life, k: Worker, w: Work, left: Remains): Life {
    match FirstMessage(left.messages, w.id)
    case Some(ok) => Life(Over, a.sends, Some(Finished(ok)))
    case None =>
      if k.stopped then Life(Over, a.sends, Some(Running))
      else if w.retries < cfg.maxRetries && (left.exitCode == Some(-9) || left.exitCode == Some(137))
      then Life(Waiting, a.sends, Some(Running))
      else Life(Over, a.sends, Some(Finished(false)))
  }

  /** Nobody but `k` has left a message about the task. */
  ghost predicate OnlyItsOwn(lost: seq<Worker>, remains: map<int, Remains>, k: Worker, w: Work) {
    forall j :: j in lost && j.id != k.id ==> LeftMessage(remains, j, w.id) == None
  }

  /** The task has met its fate, or still waits for it. */
  ghost predicate MetOrWaits(cfg: Config, s: State, s': State, met: bool, left: Remains, k: Worker, w: Work) {
    && Inv(cfg, s')
    && (if met then LifeOf(s', w.id) == Fate(cfg, LifeOf(s, w.id), k, w, left)
        else Awaits(s', k, w) && LifeOf(s', w.id) == LifeOf(s, w.id))
  }

  /** One more dead worker is buried. */
  lemma BuryNext(cfg: Config, s: State, mid: State, met: bool, remains: map<int, Remains>, k: Worker, w: Work,
                 j: Worker)
    requires MetOrWaits(cfg, s, mid, met, RemainsOf(remains, k), k, w) && j in mid.dead
    requires j.id == k.id ==> j == k && !met
    requires j.id != k.id ==> LeftMessage(remains, j, w.id) == None
    ensures var left := RemainsOf(remains, j);
      MetOrWaits(cfg, s, Bury(cfg, mid, j, left.messages, left.exitCode), met || j == k, RemainsOf(remains, k), k, w)
  {
    var left := RemainsOf(remains, j);
    hide Inv, LifeOf, StageOf, Bury, Awaits, FirstMessage;
    BuryKeepsInv(cfg, mid, j, left.messages, left.exitCode);
    if met {
      StageOfLife(mid, w.id);
      OthersLeaveAlone(cfg, mid, w.id, j, left.messages, left.exitCode);
    } else if j == k {
      BuryOne(cfg, mid, k, left, w);
    } else {
      OthersLeaveWaiting(cfg, mid, k, w, j, left.messages, left.exitCode);
    }
  }

  lemma {:induction false} BuryAllSettles(cfg: Config, s: State, lost: seq<Worker>, remains: map<int, Remains>,
                                          k: Worker, w: Work)
    requires Inv(cfg, s) && Awaits(s, k, w) && NoDupWorkers(lost) && (forall j :: j in lost ==> j in s.dead)
    requires OnlyItsOwn(lost, remains, k, w)
    ensures MetOrWaits(cfg, s, BuryAll(cfg, s, lost, remains), k in lost, RemainsOf(remains, k), k, w)
  {
    hide Inv, Bury, LifeOf, Fate, LeftMessage;
    if lost != [] {
      var pre, j := lost[..|lost| - 1], lost[|lost| - 1];
      assert lost == pre + [j];
      LastIsApart(lost);
      SameDead(cfg, s, lost, k);
      assert j.id != k.id ==> LeftMessage(remains, j, w.id) == None;
      assert OnlyItsOwn(pre, remains, k, w);
      hide Awaits, MetOrWaits, NoDupWorkers, OnlyItsOwn;
      BuryAllSettles(cfg, s, pre, remains, k, w);
      BuryAllLeavesTheRest(cfg, s, pre, remains);
      assert j !in pre;
      BuryNext(cfg, s, BuryAll(cfg, s, pre, remains), k in pre, remains, k, w, j);
    }
  }

  /** Those not buried stay with their handler. */
  lemma {:induction false} BuryAllLeavesTheRest(cfg: Config, s: State, lost: seq<Worker>, remains: map<int, Remains>)
    requires Inv(cfg, s) && NoDupWorkers(lost) && (forall j :: j in lost ==> j in s.dead)
    ensures var s' := BuryAll(cfg, s, lost, remains);
      Inv(cfg, s') && forall i :: i in s.dead && i !in lost ==> i in s'.dead
  {
    if lost != [] {
      var pre, j := lost[..|lost| - 1], lost[|lost| - 1];
      var mid, left := BuryAll(cfg, s, pre, remains), RemainsOf(remains, j);
      assert lost == pre + [j];
      LastIsApart(lost);
      DeadApart(cfg, s);
      hide Inv, Bury, NoDupWorkers;
      BuryAllLeavesTheRest(cfg, s, pre, remains);
      assert j !in pre;
      OthersStay(cfg, mid, j, left.messages, left.exitCode);
      BuryKeepsInv(cfg, mid, j, left.messages, left.exitCode);
    }
  }

  lemma DeadApart(cfg: Config, s: State)
    requires Inv(cfg, s)
    ensures forall i, j :: i in s.dead && j in s.dead && i.id == j.id ==> i == j
  {
    forall i, j | i in s.dead && j in s.dead && i.id == j.id ensures i == j {
      SameIdSameWorker(s.dead, i, j);
    }
  }

  lemma BuryOne(cfg: Config, s: State, k: Worker, left: Remains, w: Work)
    requires Inv(cfg, s) && Awaits(s, k, w)
    ensures LifeOf(Bury(cfg, s, k, left.messages, left.exitCode), w.id) == Fate(cfg, LifeOf(s, w.id), k, w, left)
  {
    hide Inv, LifeOf, Bury;
    BurySettles(cfg, s, k, left.messages, left.exitCode, w);
  }

  lemma LastIsApart(ks: seq<Worker>)
    requires NoDupWorkers(ks) && ks != []
    ensures var pre, k := ks[..|ks| - 1], ks[|ks| - 1];
      NoDupWorkers(pre) && forall j :: j in pre ==> j.id != k.id
  {
    var n := |ks| - 1;
    forall j | j in ks[..n] ensures j.id != ks[n].id {
      var i :| 0 <= i < n && ks[i] == j;
    }
  }

  lemma SameDead(cfg: Config, s: State, lost: seq<Worker>, k: Worker)
    requires Inv(cfg, s) && k in s.dead && forall j :: j in lost ==> j in s.dead
    ensures forall j :: j in lost && j.id == k.id ==> j == k
  {
    forall j | j in lost && j.id == k.id ensures j == k {
      SameIdSameWorker(s.dead, j, k);
    }
  }

  lemma OthersStay(cfg: Config, s: State, j: Worker, messages: seq<Message>, exitCode: Option<int>)
    requires Inv(cfg, s) && j in s.dead
    ensures forall i :: i in s.dead && i.id != j.id ==> i in Bury(cfg, s, j, messages, exitCode).dead
  {
    var drained := if j.poisoned then s else Drain(cfg, s, messages);
    DrainLeavesTheDead(cfg, s, messages);
    DrainKeepsInv(cfg, s, messages);
    DeadIsFound(cfg, drained, j);
    hide Inv, Drain, TakeLost, FinishLost;
    OthersStayDead(drained, j);
    var taken := TakeLost(drained, j.id);
    if j.current.Some? { FinishLostFrame(cfg, taken, j.current.value, exitCode); }
  }

  // ----- the sweep -----

  /** What a sweep makes of a task in flight on a worker whose process is gone, if no other queue the sweep
      reads has a message about it: a result the worker left decides, and without one its exit code. */
  lemma SweepSettles(cfg: Config, s: State, gone: set<int>, remains: map<int, Remains>, k: Worker, w: Work)
    requires Inv(cfg, s) && k in s.workers && k.id in gone && k.current == Some(w.id) && w in s.inFlight
    requires OnlyItsOwn(PickWorkers(s.workers, gone, true), remains, k, w)
    requires forall j :: j in s.retiring && j.id in gone && !j.poisoned ==> LeftMessage(remains, j, w.id) == None
    ensures LifeOf(Sweep(cfg, s, gone, remains), w.id) == Fate(cfg, LifeOf(s, w.id), k, w, RemainsOf(remains, k))
  {
    var reaped, lost := PickWorkers(s.retiring, gone, true), PickWorkers(s.workers, gone, true);
    var checked := CheckWorkers(s, gone);
    var settled := ReapAll(cfg, checked, reaped, remains);
    CheckWorkersKeepsInv(cfg, s, gone);
    SameTasksSameLives(s, checked, w.id);
    LostAreThere(cfg, s, gone);
    ReapedLeaveWaiting(cfg, checked, reaped, remains, k, w);
    hide Inv, LifeOf, Awaits, PickWorkers, ReapAll, BuryAll;
    BuryAllSettles(cfg, settled, lost, remains, k, w);
  }

  lemma LostAreThere(cfg: Config, s: State, gone: set<int>)
    requires Inv(cfg, s)
    ensures var lost := PickWorkers(s.workers, gone, true);
      && NoDupWorkers(lost) && (forall k :: k in lost ==> k in CheckWorkers(s, gone).dead)
      && (forall k :: k in s.workers && k.id in gone ==> k in lost)
  {
    PickKeepsDistinct(s.workers, gone, true);
  }

  lemma {:induction false} ReapedLeaveWaiting(cfg: Config, s: State, reaped: seq<Worker>, remains: map<int, Remains>,
                                              k: Worker, w: Work)
    requires Inv(cfg, s) && Awaits(s, k, w)
    requires forall j :: j in reaped && !j.poisoned ==> LeftMessage(remains, j, w.id) == None
    ensures var s' := ReapAll(cfg, s, reaped, remains);
      Inv(cfg, s') && Awaits(s', k, w) && LifeOf(s', w.id) == LifeOf(s, w.id) && s'.dead == s.dead
  {
    hide Inv, LifeOf, Drain, Awaits, FirstMessage;
    if reaped != [] {
      var n := |reaped| - 1;
      assert reaped == reaped[..n] + [reaped[n]];
      ReapedLeaveWaiting(cfg, s, reaped[..n], remains, k, w);
      var mid := ReapAll(cfg, s, reaped[..n], remains);
      if !reaped[n].poisoned {
        DrainLeavesWaiting(cfg, mid, k, w, RemainsOf(remains, reaped[n]).messages);
      }
    }
  }
}
