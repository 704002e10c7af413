/** The same work under this scheduler and under strict FIFO: two runs from one world, in which the
    same tasks arrive, the same starts find no worker, and every task takes its own time. */
module Twins {
  import opened Admission
  import opened Planning
  import opened Reservations
  import opened Plans
  import opened Runs
  import opened Turns

  // ----- queues -----

  function IdsIn(queue: seq<PendingEntry>): set<string> {
    set e | e in queue :: e.id
  }

  /** The entries with an id in `ids`, in order. */
  function Only(queue: seq<PendingEntry>, ids: set<string>): (r: seq<PendingEntry>)
    ensures forall e :: e in r <==> e in queue && e.id in ids
  {
    if queue == [] then []
    else
      assert queue == [queue[0]] + queue[1..];
      (if queue[0].id in ids then [queue[0]] else []) + Only(queue[1..], ids)
  }

  /** The entries ahead of the one called `id`. */
  function AheadOf(queue: seq<PendingEntry>, id: string): seq<PendingEntry> {
    if queue == [] || queue[0].id == id then [] else [queue[0]] + AheadOf(queue[1..], id)
  }

  lemma {:induction false} OnlyJoined(a: seq<PendingEntry>, b: seq<PendingEntry>, ids: set<string>)
    ensures Only(a + b, ids) == Only(a, ids) + Only(b, ids)
  {
    if a == [] {
      assert a + b == b;
    } else {
      OnlyJoined(a[1..], b, ids);
      assert (a + b)[1..] == a[1..] + b && (a + b)[0] == a[0];
      var first, rest, last := if a[0].id in ids then [a[0]] else [], Only(a[1..], ids), Only(b, ids);
      assert first + (rest + last) == (first + rest) + last;
    }
  }

  /** Only the ids that occur matter. */
  lemma {:induction false} OnlyByMembers(queue: seq<PendingEntry>, a: set<string>, b: set<string>)
    requires forall e :: e in queue ==> (e.id in a <==> e.id in b)
    ensures Only(queue, a) == Only(queue, b)
  {
    if queue != [] {
      assert queue[0] in queue;
      OnlyByMembers(queue[1..], a, b);
    }
  }

  lemma {:induction false} OnlyTwice(queue: seq<PendingEntry>, a: set<string>, b: set<string>)
    ensures Only(Only(queue, a), b) == Only(queue, a * b)
  {
    if queue != [] {
      OnlyTwice(queue[1..], a, b);
      OnlyJoined(if queue[0].id in a then [queue[0]] else [], Only(queue[1..], a), b);
    }
  }

  lemma {:induction false} OnlyAll(queue: seq<PendingEntry>, ids: set<string>)
    requires forall e :: e in queue ==> e.id in ids
    ensures Only(queue, ids) == queue
  {
    if queue != [] {
      assert queue[0] in queue;
      OnlyAll(queue[1..], ids);
    }
  }

  /** Leaving entries out leaves out those ahead of any that stays. */
  lemma {:induction false} AheadAmongOnly(queue: seq<PendingEntry>, ids: set<string>, id: string)
    requires id in ids
    ensures AheadOf(Only(queue, ids), id) == Only(AheadOf(queue, id), ids)
  {
    if queue != [] {
      AheadAmongOnly(queue[1..], ids, id);
      var e, rest := queue[0], Only(queue[1..], ids);
      if e.id != id {
        assert ([e] + AheadOf(queue[1..], id))[1..] == AheadOf(queue[1..], id);
        assert ([e] + rest)[1..] == rest && [] + rest == rest;
      }
    }
  }

  lemma {:induction false} AheadIsPrefix(queue: seq<PendingEntry>, j: int)
    requires DistinctIds(queue) && 0 <= j < |queue|
    ensures AheadOf(queue, queue[j].id) == queue[..j]
  {
    if j > 0 {
      AheadIsPrefix(queue[1..], j - 1);
      assert queue[..j] == [queue[0]] + queue[1..][..j - 1];
    }
  }

  lemma {:induction false} OnlyKeepsDistinct(queue: seq<PendingEntry>, ids: set<string>)
    requires DistinctIds(queue)
    ensures DistinctIds(Only(queue, ids))
  {
    if queue != [] {
      OnlyKeepsDistinct(queue[1..], ids);
      var rest := Only(queue[1..], ids);
      forall e | e in rest ensures e.id != queue[0].id {
        var i :| 0 <= i < |queue[1..]| && queue[1..][i] == e;
        assert queue[i + 1] == e;
      }
    }
  }

  // ----- one cycle to the next -----

  /** What happens up to the next cycle, whoever schedules: when that is, which starts find no
      worker, and which tasks arrive. */
  datatype Tick = Tick(now: real, refused: set<string>, arrivals: seq<PendingEntry>)

  /** The placements that find a worker. */
  function Sent(admitted: seq<Placement>, refused: set<string>): (r: seq<Placement>)
    ensures forall a :: a in r <==> a in admitted && a.task.id !in refused
  {
    if admitted == [] then []
    else
      var a := admitted[|admitted| - 1];
      assert admitted == admitted[..|admitted| - 1] + [a];
      Sent(admitted[..|admitted| - 1], refused) + (if a.task.id in refused then [] else [a])
  }

  /** The tasks that have not yet run for their time. */
  function StillRunning(tasks: seq<Task>, now: real, took: string -> real): (r: seq<Task>)
    ensures forall t :: t in r <==> t in tasks && now - t.started < took(t.entry.id)
  {
    if tasks == [] then []
    else
      var t := tasks[|tasks| - 1];
      assert tasks == tasks[..|tasks| - 1] + [t];
      StillRunning(tasks[..|tasks| - 1], now, took) + (if now - t.started < took(t.entry.id) then [t] else [])
  }

  function StartedIds(sent: seq<Placement>): set<string> {
    set a | a in sent :: a.task.id
  }

  function StillQueued(queue: seq<PendingEntry>, sent: seq<Placement>): seq<PendingEntry> {
    Only(queue, IdsIn(queue) - StartedIds(sent))
  }

  /** The next world, if `admitted` is started and the rotation moves on to `rr`. */
  function Advance(w: World, admitted: seq<Placement>, rr: int, tick: Tick, took: string -> real): World {
    var sent := Sent(admitted, tick.refused);
    World(tick.now, StillRunning(w.tasks + Shipped(sent, w.now), tick.now, took),
          StillQueued(w.queue, sent) + tick.arrivals, rr)
  }

  /** The world after some cycles of this scheduler. */
  ghost function Ours(m: Machine, took: string -> real, w: World, ticks: seq<Tick>): World {
    if ticks == [] then w
    else
      var v := Ours(m, took, w, ticks[..|ticks| - 1]);
      Advance(v, PlanAt(m, v).admitted, PlanAt(m, v).rr, ticks[|ticks| - 1], took)
  }

  /** The world after the same cycles of strict FIFO. */
  ghost function Strict(m: Machine, took: string -> real, w: World, ticks: seq<Tick>): World {
    if ticks == [] then w
    else
      var v := Strict(m, took, w, ticks[..|ticks| - 1]);
      Advance(v, FifoAt(m, v), FifoIndexAt(m, v), ticks[|ticks| - 1], took)
  }

  // ----- what every world of either run is like -----

  function EntriesOf(tasks: seq<Task>): (r: seq<PendingEntry>)
    ensures |r| == |tasks|
  {
    seq(|tasks|, i requires 0 <= i < |tasks| => tasks[i].entry)
  }

  /** Every task there has been: in flight or queued at first, or arrived since. */
  function Everyone(w: World, ticks: seq<Tick>): seq<PendingEntry> {
    if ticks == [] then EntriesOf(w.tasks) + w.queue
    else Everyone(w, ticks[..|ticks| - 1]) + ticks[|ticks| - 1].arrivals
  }

  /** Tasks have different ids and sane sizes, and time does not run backwards. */
  ghost predicate Sane(w: World, ticks: seq<Tick>) {
    && DistinctIds(Everyone(w, ticks)) && AllSized(Everyone(w, ticks))
    && (forall t :: t in w.tasks ==> t.started <= w.now)
    && Forward(w.now, ticks)
  }

  ghost predicate Forward(now: real, ticks: seq<Tick>) {
    (ticks != [] ==> now <= ticks[0].now) && forall i :: 0 < i < |ticks| ==> ticks[i - 1].now <= ticks[i].now
  }

  ghost predicate DistinctTasks(tasks: seq<Task>) {
    forall i, j :: 0 <= i < j < |tasks| ==> tasks[i].entry.id != tasks[j].entry.id
  }

  /** The queue is in order of arrival, and nobody is twice in flight, or in flight and queued. */
  ghost predicate Orderly(all: seq<PendingEntry>, w: World) {
    && w.queue == Only(all, IdsIn(w.queue))
    && DistinctTasks(w.tasks)
    && (forall t :: t in w.tasks ==> t.entry in all && t.entry.id !in IdsIn(w.queue) && t.started <= w.now)
  }

  /** Queued tasks, each once. */
  ghost predicate FromQueue(admitted: seq<Placement>, queue: seq<PendingEntry>) {
    DistinctStarts(admitted) && forall a :: a in admitted ==> a.task in queue
  }

  ghost predicate DistinctStarts(admitted: seq<Placement>) {
    forall i, j :: 0 <= i < j < |admitted| ==> admitted[i].task.id != admitted[j].task.id
  }

  lemma {:induction false} SentDistinct(admitted: seq<Placement>, refused: set<string>)
    requires DistinctStarts(admitted)
    ensures DistinctStarts(Sent(admitted, refused))
  {
    if admitted != [] {
      var n := |admitted| - 1;
      SentDistinct(admitted[..n], refused);
      var r := Sent(admitted[..n], refused);
      forall i | 0 <= i < |r| ensures r[i].task.id != admitted[n].task.id {
        assert r[i] in r && r[i] in admitted[..n];
        var k :| 0 <= k < n && admitted[..n][k] == r[i];
        assert admitted[k].task.id != admitted[n].task.id;
      }
    }
  }

  lemma RunningSnoc(tasks: seq<Task>, t: Task, now: real, took: string -> real)
    ensures StillRunning(tasks + [t], now, took) ==
      StillRunning(tasks, now, took) + (if now - t.started < took(t.entry.id) then [t] else [])
  {
    assert (tasks + [t])[..|tasks|] == tasks;
  }

  lemma NoneRunning(now: real, took: string -> real)
    ensures StillRunning([], now, took) == []
  {
  }

  lemma {:induction false} RunningDistinct(tasks: seq<Task>, now: real, took: string -> real)
    requires DistinctTasks(tasks)
    ensures DistinctTasks(StillRunning(tasks, now, took))
  {
    if tasks != [] {
      var n := |tasks| - 1;
      RunningDistinct(tasks[..n], now, took);
      var r := StillRunning(tasks[..n], now, took);
      forall i | 0 <= i < |r| ensures r[i].entry.id != tasks[n].entry.id {
        assert r[i] in r && r[i] in tasks[..n];
        var k :| 0 <= k < n && tasks[..n][k] == r[i];
        assert tasks[k].entry.id != tasks[n].entry.id;
      }
    }
  }

  /** What is in flight after a cycle: what was, or was sent, and has not run for its time. */
  lemma InFlightNext(w: World, admitted: seq<Placement>, rr: int, tick: Tick, took: string -> real, t: Task)
    ensures t in Advance(w, admitted, rr, tick, took).tasks <==>
      && tick.now - t.started < took(t.entry.id)
      && (t in w.tasks
          || exists a :: a in admitted && a.task.id !in tick.refused && t == Task(a.task, a.gpu, w.now))
  {
    var sent := Sent(admitted, tick.refused);
    var shipped := Shipped(sent, w.now);
    if t in shipped {
      var i :| 0 <= i < |shipped| && shipped[i] == t;
      assert sent[i] in sent;
    }
    if a :| a in admitted && a.task.id !in tick.refused && t == Task(a.task, a.gpu, w.now) {
      assert a in sent;
      var i :| 0 <= i < |sent| && sent[i] == a;
      assert shipped[i] == t;
    }
  }

  /** What is queued after a cycle: what was and was not sent, and what arrived. */
  lemma QueuedNext(w: World, admitted: seq<Placement>, rr: int, tick: Tick, took: string -> real, e: PendingEntry)
    ensures e in Advance(w, admitted, rr, tick, took).queue <==>
      || (e in w.queue && forall a :: a in admitted && a.task.id == e.id ==> a.task.id in tick.refused)
      || e in tick.arrivals
  {
  }

  lemma TasksStayDistinct(w: World, admitted: seq<Placement>, rr: int, tick: Tick, took: string -> real)
    requires DistinctTasks(w.tasks) && FromQueue(admitted, w.queue)
    requires forall t :: t in w.tasks ==> t.entry.id !in IdsIn(w.queue)
    ensures DistinctTasks(Advance(w, admitted, rr, tick, took).tasks)
  {
    var sent := Sent(admitted, tick.refused);
    SentDistinct(admitted, tick.refused);
    var all := w.tasks + Shipped(sent, w.now);
    forall i, j | 0 <= i < j < |all| ensures all[i].entry.id != all[j].entry.id {
      if i < |w.tasks| <= j {
        var a := sent[j - |w.tasks|];
        assert a in sent && a.task in w.queue && w.tasks[i] in w.tasks;
        assert all[j].entry == a.task && a.task.id in IdsIn(w.queue);
      } else if |w.tasks| <= i {
        assert sent[i - |w.tasks|].task.id != sent[j - |w.tasks|].task.id;
      }
    }
    RunningDistinct(all, tick.now, took);
  }

  lemma QueueStaysOrdered(all: seq<PendingEntry>, w: World, admitted: seq<Placement>, rr: int, tick: Tick,
                          took: string -> real)
    requires DistinctIds(all + tick.arrivals) && w.queue == Only(all, IdsIn(w.queue))
    ensures var queue := Advance(w, admitted, rr, tick, took).queue;
      queue == Only(all + tick.arrivals, IdsIn(queue))
  {
    var sent := Sent(admitted, tick.refused);
    var ids := IdsIn(w.queue) - StartedIds(sent);
    var queue := Advance(w, admitted, rr, tick, took).queue;
    OnlyJoined(all, tick.arrivals, IdsIn(queue));
    OnlyAll(tick.arrivals, IdsIn(queue));
    OnlyTwice(all, IdsIn(w.queue), ids);
    DistinctHalves(all, tick.arrivals);
    OnlyByMembers(all, IdsIn(w.queue) * ids, IdsIn(queue));
  }

  lemma DistinctHalves(a: seq<PendingEntry>, b: seq<PendingEntry>)
    requires DistinctIds(a + b)
    ensures DistinctIds(a) && DistinctIds(b)
    ensures forall x, y :: x in a && y in b ==> x.id != y.id
  {
    var all := a + b;
    forall x, y | x in a && y in b ensures x.id != y.id {
      var i :| 0 <= i < |a| && a[i] == x;
      var j :| 0 <= j < |b| && b[j] == y;
      assert all[i].id != all[|a| + j].id;
    }
    forall i, j | 0 <= i < j < |a| ensures a[i].id != a[j].id {
      assert all[i].id != all[j].id;
    }
    forall i, j | 0 <= i < j < |b| ensures b[i].id != b[j].id {
      assert all[|a| + i].id != all[|a| + j].id;
    }
  }

  lemma SameIdSameEntry(all: seq<PendingEntry>, x: PendingEntry, y: PendingEntry)
    requires DistinctIds(all) && x in all && y in all && x.id == y.id
    ensures x == y
  {
    var i :| 0 <= i < |all| && all[i] == x;
    var j :| 0 <= j < |all| && all[j] == y;
  }

  // ----- both runs are orderly -----

  lemma OrderlyQueue(all: seq<PendingEntry>, w: World)
    requires DistinctIds(all) && Orderly(all, w)
    ensures DistinctIds(w.queue) && forall e :: e in w.queue ==> e in all
  {
    OnlyKeepsDistinct(all, IdsIn(w.queue));
  }

  lemma StartsAreFromQueue(m: Machine, w: World)
    requires DistinctIds(w.queue)
    ensures FromQueue(PlanAt(m, w).admitted, w.queue) && FromQueue(FifoAt(m, w), w.queue)
  {
    FifoAtIsPrefix(m, w);
    if !AnyExclusive(Running(w.tasks, w.now)) {
      var at := PlanRefinesFifo(w.queue, Running(w.tasks, w.now), CapacityOf(m, w));
    }
    hide FifoAt, PlanAt;
  }

  lemma AdvanceStaysOrderly(all: seq<PendingEntry>, w: World, admitted: seq<Placement>, rr: int, tick: Tick,
                            took: string -> real)
    requires Orderly(all, w) && DistinctIds(all + tick.arrivals) && FromQueue(admitted, w.queue) && w.now <= tick.now
    ensures Orderly(all + tick.arrivals, Advance(w, admitted, rr, tick, took))
  {
    var w' := Advance(w, admitted, rr, tick, took);
    QueueStaysOrdered(all, w, admitted, rr, tick, took);
    TasksStayDistinct(w, admitted, rr, tick, took);
    DistinctHalves(all, tick.arrivals);
    forall t | t in w'.tasks
      ensures t.entry in all + tick.arrivals && t.entry.id !in IdsIn(w'.queue) && t.started <= w'.now
    {
      InFlightNext(w, admitted, rr, tick, took, t);
      forall e | e in w'.queue ensures e.id != t.entry.id {
        QueuedNext(w, admitted, rr, tick, took, e);
      }
    }
  }

  lemma SanePrefix(w: World, ticks: seq<Tick>)
    requires Sane(w, ticks) && ticks != []
    ensures Sane(w, ticks[..|ticks| - 1])
    ensures Everyone(w, ticks) == Everyone(w, ticks[..|ticks| - 1]) + ticks[|ticks| - 1].arrivals
    ensures NowAt(w, ticks[..|ticks| - 1]) <= ticks[|ticks| - 1].now
  {
    var n := |ticks| - 1;
    var all := Everyone(w, ticks[..n]);
    DistinctHalves(all, ticks[n].arrivals);
    assert forall i :: 0 <= i < |all| ==> Everyone(w, ticks)[i] == all[i];
    assert Forward(w.now, ticks[..n]) by {
      assert forall i :: 0 <= i < n ==> ticks[..n][i] == ticks[i];
    }
  }

  function NowAt(w: World, ticks: seq<Tick>): real {
    if ticks == [] then w.now else ticks[|ticks| - 1].now
  }

  lemma FirstIsOrderly(w: World)
    requires Sane(w, [])
    ensures Orderly(Everyone(w, []), w)
  {
    var entries := EntriesOf(w.tasks);
    DistinctHalves(entries, w.queue);
    FirstQueue(entries, w.queue);
    forall i, j | 0 <= i < j < |w.tasks| ensures w.tasks[i].entry.id != w.tasks[j].entry.id {
      assert entries[i].id != entries[j].id;
    }
    hide Only;
    forall t | t in w.tasks ensures t.entry in entries {
      var i :| 0 <= i < |w.tasks| && w.tasks[i] == t;
      assert entries[i] == t.entry;
    }
  }

  /** Leaving out those ahead of the queue leaves the queue. */
  lemma FirstQueue(entries: seq<PendingEntry>, queue: seq<PendingEntry>)
    requires forall x, y :: x in entries && y in queue ==> x.id != y.id
    ensures Only(entries + queue, IdsIn(queue)) == queue
  {
    OnlyJoined(entries, queue, IdsIn(queue));
    OnlyAll(queue, IdsIn(queue));
    OnlyByMembers(entries, IdsIn(queue), {});
    NoneOnly(entries);
    hide Only;
    assert [] + queue == queue;
  }

  lemma {:induction false} NoneOnly(queue: seq<PendingEntry>)
    ensures Only(queue, {}) == []
  {
    if queue != [] {
      NoneOnly(queue[1..]);
    }
  }

  lemma NowAfter(m: Machine, took: string -> real, w: World, ticks: seq<Tick>)
    ensures Ours(m, took, w, ticks).now == NowAt(w, ticks) && Strict(m, took, w, ticks).now == NowAt(w, ticks)
  {
  }

  /** In every world of either run the queue is in order of arrival and nobody is there twice. */
  lemma {:induction false} BothOrderly(m: Machine, took: string -> real, w: World, ticks: seq<Tick>)
    requires Sane(w, ticks)
    ensures Orderly(Everyone(w, ticks), Ours(m, took, w, ticks))
    ensures Orderly(Everyone(w, ticks), Strict(m, took, w, ticks))
  {
    if ticks == [] {
      FirstIsOrderly(w);
    } else {
      var n := |ticks| - 1;
      var all, tick := Everyone(w, ticks[..n]), ticks[n];
      var ours, strict := Ours(m, took, w, ticks[..n]), Strict(m, took, w, ticks[..n]);
      SanePrefix(w, ticks);
      BothOrderly(m, took, w, ticks[..n]);
      NowAfter(m, took, w, ticks[..n]);
      OrderlyQueue(all, ours);
      OrderlyQueue(all, strict);
      StartsAreFromQueue(m, ours);
      StartsAreFromQueue(m, strict);
      hide Orderly, Advance, FromQueue, PlanAt, FifoAt, Sane;
      AdvanceStaysOrderly(all, ours, PlanAt(m, ours).admitted, PlanAt(m, ours).rr, tick, took);
      AdvanceStaysOrderly(all, strict, FifoAt(m, strict), FifoIndexAt(m, strict), tick, took);
    }
  }
}
