/** What is learned about one function: a sliding window of observations and a memory floor
    left behind by crashes. */
module Profiles {
  import opened Quantities

  datatype Observation = Observation(memory: real, vram: real, cpuPercent: real, duration: real)

  /** `duration.None?` means nothing is known about how long a run takes. */
  datatype Estimate = Estimate(memory: real, vram: real, cpu: real, confidence: real, duration: Option<real>)

  const FLOOR_RECOVERY_OBSERVATIONS: nat := 5
  const FLOOR_RECOVERY_FRACTION := 0.5
  const DEFAULT_WINDOW: nat := 100

  datatype Profile = Profile(observations: seq<Observation>, window: nat, floor: Option<real>)

  const EMPTY := Profile([], DEFAULT_WINDOW, None)

  /** The last `n` elements, as a slice from `-n` gives them: all of them when `n` is 0. */
  function KeepLast<T>(xs: seq<T>, n: nat): seq<T> {
    if n == 0 || |xs| <= n then xs else xs[|xs| - n..]
  }

  function Max(x: real, y: real): real {
    if x < y then y else x
  }

  function Min(x: real, y: real): real {
    if y < x then y else x
  }

  predicate AllBelow(observations: seq<Observation>, threshold: real) {
    forall i :: 0 <= i < |observations| ==> observations[i].memory < threshold
  }

  function Recovered(p: Profile): Profile {
    if p.floor == None then p
    else
      var recent := KeepLast(p.observations, FLOOR_RECOVERY_OBSERVATIONS);
      if |recent| < FLOOR_RECOVERY_OBSERVATIONS then p
      else if AllBelow(recent, p.floor.value * FLOOR_RECOVERY_FRACTION) then p.(floor := None)
      else p
  }

  function Add(p: Profile, o: Observation): Profile {
    var all := p.observations + [o];
    Recovered(p.(observations := if |all| > p.window then KeepLast(all, p.window) else all))
  }

  function SetMemoryFloor(p: Profile, gb: real): Profile {
    p.(floor := Some(if p.floor == None then gb else Max(p.floor.value, gb)))
  }

  // ----- percentile and estimate -----

  function Insert(sorted: seq<real>, x: real): seq<real> {
    if sorted == [] then [x]
    else if x <= sorted[0] then [x] + sorted
    else [sorted[0]] + Insert(sorted[1..], x)
  }

  function Sorted(values: seq<real>): (r: seq<real>)
    ensures |r| == |values|
  {
    if values == [] then []
    else
      InsertLength(Sorted(values[..|values| - 1]), values[|values| - 1]);
      Insert(Sorted(values[..|values| - 1]), values[|values| - 1])
  }

  lemma {:induction false} InsertLength(sorted: seq<real>, x: real)
    ensures |Insert(sorted, x)| == |sorted| + 1
  {
    if sorted != [] && x > sorted[0] {
      InsertLength(sorted[1..], x);
    }
  }

  /** The index of the nearest-rank percentile among `n` sorted values. */
  function Rank(n: nat, p: real): (i: int)
    requires n > 0 && 0.0 <= p <= 1.0
    ensures 0 <= i < n
  {
    var x := (n - 1) as real * p;
    assert 0.0 <= x <= (n - 1) as real by { ScaledDown((n - 1) as real, p); }
    x.Floor
  }

  lemma ScaledDown(x: real, p: real)
    requires 0.0 <= x && 0.0 <= p <= 1.0
    ensures 0.0 <= x * p <= x
  {
    assert x * (1.0 - p) >= 0.0;
  }

  function Percentile(values: seq<real>, p: real): real
    requires 0.0 <= p <= 1.0
  {
    if values == [] then 0.0 else Sorted(values)[Rank(|values|, p)]
  }

  function P90(values: seq<real>): real {
    Percentile(values, 0.9)
  }

  function MemoryOf(observations: seq<Observation>): (r: seq<real>)
    ensures |r| == |observations|
  {
    seq(|observations|, i requires 0 <= i < |observations| => observations[i].memory)
  }

  function VramOf(observations: seq<Observation>): seq<real> {
    seq(|observations|, i requires 0 <= i < |observations| => observations[i].vram)
  }

  function DurationOf(observations: seq<Observation>): seq<real> {
    seq(|observations|, i requires 0 <= i < |observations| => observations[i].duration)
  }

  function SumCpu(observations: seq<Observation>): real {
    if observations == [] then 0.0
    else SumCpu(observations[..|observations| - 1]) + observations[|observations| - 1].cpuPercent
  }

  function Confidence(p: Profile): real {
    Min(1.0, |p.observations| as real / 10.0)
  }

  function SafetyMultiplier(p: Profile): real {
    1.0 + 0.5 * (1.0 - Confidence(p))
  }

  function EstimateFrom(p: Profile, memoryHint: Option<real>, vramHint: Option<real>): Estimate {
    var known := p.observations != [];
    var memory := if memoryHint.Some? then memoryHint.value
                  else if known then P90(MemoryOf(p.observations)) else 1.0;
    var vram := if vramHint.Some? then vramHint.value
                else if known then P90(VramOf(p.observations)) else 0.0;
    var cpu := if known then SumCpu(p.observations) / |p.observations| as real / 100.0 else 1.0;
    var duration := if known then Some(P90(DurationOf(p.observations))) else None;
    var padded := Max(0.1, memory * SafetyMultiplier(p));
    Estimate(if p.floor.Some? then Max(padded, p.floor.value) else padded,
             Max(0.0, vram * SafetyMultiplier(p)),
             Max(0.1, cpu),
             Confidence(p),
             duration)
  }

  // ----- what any history of observations and crashes leaves behind -----

  datatype Event = Observed(observation: Observation) | Crashed(gb: real)

  function Step(p: Profile, e: Event): Profile {
    match e
    case Observed(o) => Add(p, o)
    case Crashed(gb) => SetMemoryFloor(p, gb)
  }

  function After(p: Profile, history: seq<Event>): Profile {
    if history == [] then p else Step(After(p, history[..|history| - 1]), history[|history| - 1])
  }

  /** Every observation of a history, none forgotten. */
  function AllObserved(history: seq<Event>): seq<Observation> {
    if history == [] then []
    else
      var e := history[|history| - 1];
      AllObserved(history[..|history| - 1]) + (if e.Observed? then [e.observation] else [])
  }

  /** The largest floor set in a history, if any was. */
  function LargestFloor(history: seq<Event>): Option<real> {
    if history == [] then None
    else
      var before := LargestFloor(history[..|history| - 1]);
      var e := history[|history| - 1];
      if e.Observed? then before
      else if before == None then Some(e.gb)
      else Some(Max(before.value, e.gb))
  }

  /** The last event is an observation, and the last five observations there ever were all
      lie below half the floor in force. */
  predicate Clears(history: seq<Event>, floor: Option<real>) {
    var all := AllObserved(history);
    && history != [] && history[|history| - 1].Observed? && floor.Some? && |all| >= 5
    && (forall i :: |all| - 5 <= i < |all| ==> all[i].memory < floor.value * 0.5)
  }

  /** The length of history at the last clearing; 0 if there was none. */
  function LastClearing(history: seq<Event>): (c: nat)
    ensures c <= |history|
  {
    if history == [] then 0
    else
      var before := history[..|history| - 1];
      if Clears(history, LargestFloor(before[LastClearing(before)..])) then |history|
      else LastClearing(before)
  }

  lemma {:induction false} LargestFloorIsLargest(history: seq<Event>)
    ensures LargestFloor(history) == None <==> forall i :: 0 <= i < |history| ==> history[i].Observed?
    ensures LargestFloor(history).Some? ==>
      && Crashed(LargestFloor(history).value) in history
      && (forall i :: 0 <= i < |history| && history[i].Crashed? ==> history[i].gb <= LargestFloor(history).value)
  {
    if history != [] {
      LargestFloorIsLargest(history[..|history| - 1]);
    }
  }

  /** The window holds exactly the last observations. */
  lemma {:induction false} WindowIsLastObserved(window: nat, history: seq<Event>)
    ensures After(Profile([], window, None), history).observations == KeepLast(AllObserved(history), window)
    ensures After(Profile([], window, None), history).window == window
  {
    if history != [] {
      var before, e := history[..|history| - 1], history[|history| - 1];
      WindowIsLastObserved(window, before);
      hide KeepLast, Recovered;
      if e.Observed? {
        AddKeepsLast(After(Profile([], window, None), before), e.observation, AllObserved(before));
      }
    }
  }

  /** The window of a new profile is the last hundred observations. */
  lemma AHundredAreKept(history: seq<Event>)
    ensures var all, kept := AllObserved(history), After(EMPTY, history).observations;
      kept == if |all| <= 100 then all else all[|all| - 100..]
  {
    WindowIsLastObserved(DEFAULT_WINDOW, history);
  }

  lemma AddKeepsLast(p: Profile, o: Observation, all: seq<Observation>)
    requires p.observations == KeepLast(all, p.window)
    ensures Add(p, o).observations == KeepLast(all + [o], p.window) && Add(p, o).window == p.window
  {
    KeepLastOfKept(all, o, p.window);
  }

  lemma KeepLastOfKept(all: seq<Observation>, o: Observation, window: nat)
    ensures KeepLast(KeepLast(all, window) + [o], window) == KeepLast(all + [o], window)
  {
  }

  /** What an observation does to the floor, in terms of all observations ever made. */
  lemma AddDecidesFloor(p: Profile, o: Observation, all: seq<Observation>)
    requires (p.window == 0 || p.window >= 5) && p.observations == KeepLast(all, p.window)
    ensures var seen := all + [o];
      Add(p, o).floor ==
        if p.floor.Some? && |seen| >= 5 && AllBelow(seen[|seen| - 5..], p.floor.value * 0.5) then None else p.floor
  {
    var seen := all + [o];
    KeepLastOfKept(all, o, p.window);
    var kept := KeepLast(seen, p.window);
    assert Add(p, o) == Recovered(p.(observations := kept));
    if |seen| >= 5 {
      assert KeepLast(kept, 5) == seen[|seen| - 5..];
    } else {
      assert KeepLast(kept, 5) == seen;
    }
  }

  /** The floor a history ought to leave behind. */
  function FloorOf(history: seq<Event>): Option<real> {
    LargestFloor(history[LastClearing(history)..])
  }

  /** How that floor changes with one more event. */
  lemma FloorOfSnoc(before: seq<Event>, e: Event)
    ensures FloorOf(before + [e]) ==
      match e
      case Crashed(gb) => Some(if FloorOf(before) == None then gb else Max(FloorOf(before).value, gb))
      case Observed(_) => if Clears(before + [e], FloorOf(before)) then None else FloorOf(before)
  {
    var history := before + [e];
    assert history[..|history| - 1] == before;
    assert history[|history|..] == [];
    var since := before[LastClearing(before)..];
    assert history[LastClearing(before)..] == since + [e];
    assert (since + [e])[..|since + [e]| - 1] == since;
  }

  lemma AllObservedSnoc(before: seq<Event>, e: Event)
    ensures AllObserved(before + [e]) == AllObserved(before) + (if e.Observed? then [e.observation] else [])
  {
    assert (before + [e])[..|before + [e]| - 1] == before;
  }

  /** So an observation leaves no floor exactly when it ends a history that clears it. */
  lemma AddClears(p: Profile, before: seq<Event>, o: Observation)
    requires (p.window == 0 || p.window >= 5) && p.observations == KeepLast(AllObserved(before), p.window)
    ensures Add(p, o).floor == if Clears(before + [Observed(o)], p.floor) then None else p.floor
  {
    AddDecidesFloor(p, o, AllObserved(before));
    AllObservedSnoc(before, Observed(o));
    hide Add, KeepLast, AllObserved;
  }

  /** The crash floor means its history.  After any sequence of observations and crashes the
      floor is the largest one set since the last clearing, and a clearing is an observation
      that ends five in a row, counting those made before the floor was set, below half the
      floor in force.  (A window of 1 to 4 observations never clears a floor.) */
  lemma {:induction false} FloorIsItsHistory(window: nat, history: seq<Event>)
    requires window == 0 || window >= 5
    ensures After(Profile([], window, None), history).floor == LargestFloor(history[LastClearing(history)..])
  {
    if history == [] {
      assert history[LastClearing(history)..] == [];
    } else {
      var before, e := history[..|history| - 1], history[|history| - 1];
      var p := After(Profile([], window, None), before);
      FloorIsItsHistory(window, before);
      WindowIsLastObserved(window, before);
      assert history == before + [e];
      FloorOfSnoc(before, e);
      hide Clears, KeepLast, LargestFloor, LastClearing, Add, AllObserved;
      if e.Observed? {
        AddClears(p, before, e.observation);
      }
    }
  }

  lemma {:induction false} SmallWindowNeverClears(window: nat, history: seq<Event>)
    requires 1 <= window <= 4
    ensures After(Profile([], window, None), history).floor == LargestFloor(history)
  {
    if history != [] {
      SmallWindowNeverClears(window, history[..|history| - 1]);
      WindowIsLastObserved(window, history);
    }
  }

  /** No estimate is below the floor, whatever the hints. */
  lemma EstimateRespectsFloor(p: Profile, memoryHint: Option<real>, vramHint: Option<real>)
    ensures var e := EstimateFrom(p, memoryHint, vramHint);
      && (p.floor.Some? ==> e.memory >= p.floor.value)
      && e.memory >= 0.1 && e.vram >= 0.0 && e.cpu >= 0.1
      && (e.duration.Some? <==> p.observations != [])
  {
  }

  // ----- the p90 is an order statistic -----

  predicate Ordered(s: seq<real>) {
    forall i, j :: 0 <= i < j < |s| ==> s[i] <= s[j]
  }

  function CountAbove(values: seq<real>, x: real): nat {
    if values == [] then 0
    else CountAbove(values[..|values| - 1], x) + (if values[|values| - 1] > x then 1 else 0)
  }

  lemma {:induction false} CountAboveAppend(a: seq<real>, b: seq<real>, x: real)
    ensures CountAbove(a + b, x) == CountAbove(a, x) + CountAbove(b, x)
  {
    if b == [] {
      assert a + b == a;
    } else {
      CountAboveAppend(a, b[..|b| - 1], x);
      assert (a + b)[..|a + b| - 1] == a + b[..|b| - 1];
    }
  }

  lemma {:induction false} InsertSorts(sorted: seq<real>, y: real)
    requires Ordered(sorted)
    ensures Ordered(Insert(sorted, y))
    ensures forall x :: x in Insert(sorted, y) <==> x in sorted || x == y
  {
    if sorted != [] && y > sorted[0] {
      InsertSorts(sorted[1..], y);
      assert sorted == [sorted[0]] + sorted[1..];
      var rest := Insert(sorted[1..], y);
      forall i | 0 <= i < |rest| ensures sorted[0] <= rest[i] {
        assert rest[i] in rest;
      }
    }
  }

  lemma {:induction false} InsertCounts(sorted: seq<real>, y: real, x: real)
    ensures CountAbove(Insert(sorted, y), x) == CountAbove(sorted, x) + (if y > x then 1 else 0)
  {
    if sorted != [] {
      assert sorted == [sorted[0]] + sorted[1..];
      CountAboveAppend([sorted[0]], sorted[1..], x);
      if y <= sorted[0] {
        CountAboveAppend([y], sorted, x);
      } else {
        InsertCounts(sorted[1..], y, x);
        CountAboveAppend([sorted[0]], Insert(sorted[1..], y), x);
      }
    }
  }

  lemma {:induction false} SortedSorts(values: seq<real>)
    ensures Ordered(Sorted(values))
    ensures forall x :: x in Sorted(values) <==> x in values
  {
    if values != [] {
      SortedSorts(values[..|values| - 1]);
      InsertSorts(Sorted(values[..|values| - 1]), values[|values| - 1]);
      assert values == values[..|values| - 1] + [values[|values| - 1]];
    }
  }

  lemma {:induction false} SortedCounts(values: seq<real>, x: real)
    ensures CountAbove(Sorted(values), x) == CountAbove(values, x)
  {
    if values != [] {
      SortedCounts(values[..|values| - 1], x);
      InsertCounts(Sorted(values[..|values| - 1]), values[|values| - 1], x);
    }
  }

  lemma {:induction false} FewAbove(s: seq<real>, i: int)
    requires Ordered(s) && 0 <= i < |s|
    ensures CountAbove(s, s[i]) <= |s| - 1 - i
  {
    var pre := s[..|s| - 1];
    if i < |s| - 1 {
      FewAbove(pre, i);
    } else {
      NoneAbove(pre, s[i]);
    }
  }

  lemma {:induction false} NoneAbove(s: seq<real>, x: real)
    requires forall i :: 0 <= i < |s| ==> s[i] <= x
    ensures CountAbove(s, x) == 0
  {
    if s != [] {
      NoneAbove(s[..|s| - 1], x);
    }
  }

  /** At least `k` values are above everything below position `|s| - k`. */
  lemma {:induction false} ManyAbove(s: seq<real>, i: int, x: real)
    requires Ordered(s) && 0 <= i < |s| && x < s[i]
    ensures CountAbove(s, x) >= |s| - i
  {
    if i < |s| - 1 {
      ManyAbove(s[..|s| - 1], i, x);
    }
  }

  /** A tenth of the other values of a sample of `n`, rounded up. */
  function TenthOfOthers(n: nat): nat
    requires n > 0
  {
    (n - 1 + 9) / 10
  }

  lemma NinetyPercent(n: nat)
    requires n > 0
    ensures Rank(n, 0.9) + TenthOfOthers(n) == n - 1
  {
    var x := (n - 1) as real * 0.9;
    assert x.Floor as real <= x < x.Floor as real + 1.0;
    assert 10 * x.Floor <= 9 * (n - 1) < 10 * (x.Floor + 1);
  }

  /** The p90 of a sample is the value of the sample that is strictly exceeded by at most a
      tenth (rounded up) of the others, while anything smaller is exceeded by more. */
  lemma P90IsOrderStatistic(values: seq<real>)
    requires values != []
    ensures var r := P90(values);
      && r in values
      && CountAbove(values, r) <= TenthOfOthers(|values|)
      && (forall x :: x < r ==> CountAbove(values, x) > TenthOfOthers(|values|))
  {
    var k := Rank(|values|, 0.9);
    var s := Sorted(values);
    SortedSorts(values);
    SortedCounts(values, s[k]);
    FewAbove(s, k);
    NinetyPercent(|values|);
    assert s[k] in s;
    forall x | x < s[k] ensures CountAbove(values, x) > TenthOfOthers(|values|) {
      SortedCounts(values, x);
      ManyAbove(s, k, x);
    }
  }

  /** That characterization leaves one value, so the p90 does not depend on the order of the
      sample. */
  lemma P90IsPermutationInvariant(a: seq<real>, b: seq<real>)
    requires multiset(a) == multiset(b)
    ensures P90(a) == P90(b)
  {
    assert |a| == |multiset(a)| && |b| == |multiset(b)|;
    if a != [] {
      P90IsOrderStatistic(a);
      P90IsOrderStatistic(b);
      SameCounts(a, b, P90(a));
      SameCounts(a, b, P90(b));
    }
  }

  function DropAt(b: seq<real>, j: int): (r: seq<real>)
    requires 0 <= j < |b|
    ensures |r| == |b| - 1
  {
    b[..j] + b[j + 1..]
  }

  lemma RemoveOne(b: seq<real>, j: int, x: real)
    requires 0 <= j < |b|
    ensures multiset(DropAt(b, j)) == multiset(b) - multiset{b[j]}
    ensures CountAbove(b, x) == CountAbove(DropAt(b, j), x) + (if b[j] > x then 1 else 0)
  {
    assert b == b[..j] + ([b[j]] + b[j + 1..]);
    CountAboveAppend(b[..j], b[j + 1..], x);
    CountAboveAppend(b[..j], [b[j]] + b[j + 1..], x);
    CountAboveAppend([b[j]], b[j + 1..], x);
  }

  lemma {:induction false} SameCounts(a: seq<real>, b: seq<real>, x: real)
    requires multiset(a) == multiset(b)
    ensures CountAbove(a, x) == CountAbove(b, x)
    decreases |a|
  {
    if a == [] {
      assert b == [] by { assert |multiset(b)| == |b|; }
    } else {
      var y := a[|a| - 1];
      assert y in multiset(b);
      var j :| 0 <= j < |b| && b[j] == y;
      RemoveOne(a, |a| - 1, x);
      RemoveOne(b, j, x);
      SameCounts(DropAt(a, |a| - 1), DropAt(b, j), x);
    }
  }

  /** With no hint and no floor, the memory estimate is the p90 padded by at most half. */
  lemma EstimateNearP90(p: Profile, vramHint: Option<real>)
    requires p.floor == None && p.observations != [] && P90(MemoryOf(p.observations)) >= 0.1
    ensures var r := P90(MemoryOf(p.observations));
      r <= EstimateFrom(p, None, vramHint).memory <= 1.5 * r
    ensures |p.observations| >= 10 ==> EstimateFrom(p, None, vramHint).memory == P90(MemoryOf(p.observations))
  {
    hide EstimateFrom, P90, MemoryOf, SafetyMultiplier;
    MemoryIsPadded(p, vramHint);
    MultiplierIsModest(p);
    PaddedByHalf(P90(MemoryOf(p.observations)), SafetyMultiplier(p), EstimateFrom(p, None, vramHint).memory);
  }

  lemma MemoryIsPadded(p: Profile, vramHint: Option<real>)
    requires p.floor == None && p.observations != []
    ensures EstimateFrom(p, None, vramHint).memory == Max(0.1, P90(MemoryOf(p.observations)) * SafetyMultiplier(p))
  {
    hide P90, MemoryOf, VramOf, DurationOf, SumCpu, SafetyMultiplier, Confidence;
  }

  lemma MultiplierIsModest(p: Profile)
    ensures 1.0 <= SafetyMultiplier(p) <= 1.5
    ensures |p.observations| >= 10 ==> SafetyMultiplier(p) == 1.0
  {
  }

  lemma PaddedByHalf(r: real, s: real, estimate: real)
    requires r >= 0.1 && 1.0 <= s <= 1.5 && estimate == Max(0.1, r * s)
    ensures r <= estimate <= 1.5 * r && (s == 1.0 ==> estimate == r)
  {
    var padded := r * s;
    Between(r, s, padded);
  }

  /** A product by a factor from 1 to 1.5. */
  lemma Between(r: real, s: real, product: real)
    requires r >= 0.0 && 1.0 <= s <= 1.5 && product == r * s
    ensures r <= product <= 1.5 * r && (s == 1.0 ==> product == r)
  {
    assert product - r == r * (s - 1.0);
    NonNegativeProduct(r, s - 1.0);
    assert 1.5 * r - product == r * (1.5 - s);
    NonNegativeProduct(r, 1.5 - s);
  }

  lemma NonNegativeProduct(x: real, y: real)
    requires x >= 0.0 && y >= 0.0
    ensures x * y >= 0.0
  {
  }
}
