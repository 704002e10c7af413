/** What an estimate says, read off the observations themselves. */
module Estimates {
  import opened Quantities
  import opened Profiles

  /** What an observation measures. */
  datatype Quantity = Memory | Vram | Cpu | Time

  function In(o: Observation, q: Quantity): real {
    match q
    case Memory => o.memory
    case Vram => o.vram
    case Cpu => o.cpuPercent
    case Time => o.duration
  }

  /** How many observations measure more than `x`. */
  function Exceeding(observations: seq<Observation>, q: Quantity, x: real): nat {
    if observations == [] then 0
    else
      var n := |observations| - 1;
      Exceeding(observations[..n], q, x) + (if In(observations[n], q) > x then 1 else 0)
  }

  /** `x` is measured by some observation and exceeded by at most a tenth of the others, rounded up,
      and anything smaller is exceeded by more. */
  ghost predicate Ninetieth(observations: seq<Observation>, q: Quantity, x: real) {
    && (exists i :: 0 <= i < |observations| && In(observations[i], q) == x)
    && 10 * Exceeding(observations, q, x) <= |observations| - 1 + 9
    && (forall y :: y < x ==> 10 * Exceeding(observations, q, y) > |observations| - 1 + 9)
  }

  function Sum(observations: seq<Observation>, q: Quantity): real {
    if observations == [] then 0.0
    else
      var n := |observations| - 1;
      Sum(observations[..n], q) + In(observations[n], q)
  }

  function Measured(observations: seq<Observation>, q: Quantity): (r: seq<real>)
    ensures |r| == |observations|
  {
    seq(|observations|, i requires 0 <= i < |observations| => In(observations[i], q))
  }

  lemma {:induction false} ExceedingIsCounted(observations: seq<Observation>, q: Quantity, x: real)
    ensures CountAbove(Measured(observations, q), x) == Exceeding(observations, q, x)
  {
    if observations != [] {
      var n := |observations| - 1;
      ExceedingIsCounted(observations[..n], q, x);
      assert Measured(observations, q)[..n] == Measured(observations[..n], q);
    }
  }

  lemma P90IsNinetieth(observations: seq<Observation>, q: Quantity)
    requires observations != []
    ensures Ninetieth(observations, q, P90(Measured(observations, q)))
  {
    var values := Measured(observations, q);
    var r := P90(values);
    P90IsOrderStatistic(values);
    ExceedingIsCounted(observations, q, r);
    var i :| 0 <= i < |values| && values[i] == r;
    assert In(observations[i], q) == r;
    forall y | y < r ensures 10 * Exceeding(observations, q, y) > |observations| - 1 + 9 {
      ExceedingIsCounted(observations, q, y);
    }
  }

  /** There is only one such value. */
  lemma NinetiethIsUnique(observations: seq<Observation>, q: Quantity, x: real, y: real)
    requires Ninetieth(observations, q, x) && Ninetieth(observations, q, y)
    ensures x == y
  {
    assert x < y ==> 10 * Exceeding(observations, q, x) > |observations| - 1 + 9;
    assert y < x ==> 10 * Exceeding(observations, q, y) > |observations| - 1 + 9;
  }

  /** By what an estimate is padded: half as much again with no history, and five hundredths less for
      each of the first ten observations. */
  function Padding(n: nat): real {
    if n >= 10 then 1.0 else 1.5 - 0.05 * n as real
  }

  function Pad(x: real, n: nat): real {
    x * Padding(n)
  }

  lemma PadIs(p: Profile, x: real)
    ensures x * SafetyMultiplier(p) == Pad(x, |p.observations|)
  {
    PaddingIsMultiplier(p);
    hide SafetyMultiplier, Padding;
  }

  /** What is estimated before padding: the hint, whatever the history; or what was measured; or a
      default. */
  ghost predicate Basis(observations: seq<Observation>, q: Quantity, hint: Option<real>,
                        default: real, x: real) {
    if hint.Some? then x == hint.value
    else if observations == [] then x == default
    else Ninetieth(observations, q, x)
  }

  /** That, padded, and not below `least` or the floor. */
  ghost predicate PaddedBasis(observations: seq<Observation>, q: Quantity, hint: Option<real>,
                              default: real, least: real, floor: Option<real>, estimate: real) {
    exists x :: Basis(observations, q, hint, default, x)
      && estimate == Largest(least, Pad(x, |observations|), floor)
  }

  /** The p90 of the durations, once there are any. */
  ghost predicate UsualTime(observations: seq<Observation>, duration: Option<real>) {
    if observations == [] then duration == None
    else duration.Some? && Ninetieth(observations, Time, duration.value)
  }

  /** The mean use of cores, but one core with no history, and never less than a tenth. */
  predicate MeanCores(observations: seq<Observation>, cpu: real) {
    if observations == [] then cpu == 1.0
    else cpu == Largest(0.1, Sum(observations, Cpu) / |observations| as real / 100.0, None)
  }

  /** The memory, VRAM, cores, confidence and duration of an estimate, each in terms of the observations
      of its own kind, of its own hint, and of the floor. */
  ghost predicate IsEstimate(p: Profile, memoryHint: Option<real>, vramHint: Option<real>, e: Estimate) {
    && PaddedBasis(p.observations, Memory, memoryHint, 1.0, 0.1, p.floor, e.memory)
    && PaddedBasis(p.observations, Vram, vramHint, 0.0, 0.0, None, e.vram)
    && UsualTime(p.observations, e.duration) && MeanCores(p.observations, e.cpu)
    && e.confidence == (if |p.observations| >= 10 then 1.0 else |p.observations| as real / 10.0)
  }

  function Largest(x: real, y: real, z: Option<real>): (r: real)
    ensures r >= x && r >= y && (z.Some? ==> r >= z.value)
    ensures r == x || r == y || z == Some(r)
  {
    var r := if x < y then y else x;
    if z.Some? && z.value > r then z.value else r
  }

  lemma PaddingIsMultiplier(p: Profile)
    ensures SafetyMultiplier(p) == Padding(|p.observations|)
    ensures Confidence(p) == if |p.observations| >= 10 then 1.0 else |p.observations| as real / 10.0
  {
  }

  lemma {:induction false} SumIsCpu(observations: seq<Observation>)
    ensures SumCpu(observations) == Sum(observations, Cpu)
  {
    if observations != [] {
      SumIsCpu(observations[..|observations| - 1]);
    }
  }

  lemma MeasuredAre(observations: seq<Observation>)
    ensures MemoryOf(observations) == Measured(observations, Memory)
    ensures VramOf(observations) == Measured(observations, Vram)
    ensures DurationOf(observations) == Measured(observations, Time)
  {
    var memory, vram, duration := MemoryOf(observations), VramOf(observations), DurationOf(observations);
    assert |memory| == |vram| == |duration| == |observations|;
    forall i | 0 <= i < |observations|
      ensures memory[i] == Measured(observations, Memory)[i] && vram[i] == Measured(observations, Vram)[i]
      ensures duration[i] == Measured(observations, Time)[i]
    {
    }
  }

  /** A basis padded is a padded basis. */
  lemma Padded(observations: seq<Observation>, q: Quantity, hint: Option<real>, default: real,
               least: real, floor: Option<real>, basis: real)
    requires basis == if hint.Some? then hint.value else if observations == [] then default
                      else P90(Measured(observations, q))
    ensures PaddedBasis(observations, q, hint, default, least, floor,
                        Largest(least, Pad(basis, |observations|), floor))
  {
    if observations != [] { P90IsNinetieth(observations, q); }
    hide P90, Measured, Ninetieth, Pad;
    assert Basis(observations, q, hint, default, basis);
  }

  lemma MemoryIsPaddedBasis(p: Profile, memoryHint: Option<real>, vramHint: Option<real>)
    ensures PaddedBasis(p.observations, Memory, memoryHint, 1.0, 0.1, p.floor,
                        EstimateFrom(p, memoryHint, vramHint).memory)
  {
    var seen := p.observations;
    MeasuredAre(seen);
    hide P90, MemoryOf, VramOf, DurationOf, SumCpu, SafetyMultiplier, Confidence, PaddedBasis, Pad, Measured;
    var memory := if memoryHint.Some? then memoryHint.value
                  else if seen == [] then 1.0 else P90(Measured(seen, Memory));
    PadIs(p, memory);
    Padded(seen, Memory, memoryHint, 1.0, 0.1, p.floor, memory);
    assert EstimateFrom(p, memoryHint, vramHint).memory == Largest(0.1, memory * SafetyMultiplier(p), p.floor);
  }

  lemma VramIsPaddedBasis(p: Profile, memoryHint: Option<real>, vramHint: Option<real>)
    ensures PaddedBasis(p.observations, Vram, vramHint, 0.0, 0.0, None, EstimateFrom(p, memoryHint, vramHint).vram)
  {
    var seen := p.observations;
    MeasuredAre(seen);
    hide P90, MemoryOf, VramOf, DurationOf, SumCpu, SafetyMultiplier, Confidence, PaddedBasis, Pad, Measured;
    var vram := if vramHint.Some? then vramHint.value else if seen == [] then 0.0 else P90(Measured(seen, Vram));
    PadIs(p, vram);
    Padded(seen, Vram, vramHint, 0.0, 0.0, None, vram);
    assert EstimateFrom(p, memoryHint, vramHint).vram == Largest(0.0, vram * SafetyMultiplier(p), None);
  }

  lemma TheRestIsMeasured(p: Profile, memoryHint: Option<real>, vramHint: Option<real>)
    ensures var e := EstimateFrom(p, memoryHint, vramHint);
      && UsualTime(p.observations, e.duration) && MeanCores(p.observations, e.cpu)
      && e.confidence == (if |p.observations| >= 10 then 1.0 else |p.observations| as real / 10.0)
  {
    PaddingIsMultiplier(p);
    MeasuredAre(p.observations);
    SumIsCpu(p.observations);
    if p.observations != [] { P90IsNinetieth(p.observations, Time); }
    hide P90, MemoryOf, VramOf, DurationOf, SumCpu, Sum, SafetyMultiplier, Confidence, Ninetieth, Measured, Padding;
  }

  /** Every estimate, for any history and hints, is as described. */
  lemma EstimateFromIsEstimate(p: Profile, memoryHint: Option<real>, vramHint: Option<real>)
    ensures IsEstimate(p, memoryHint, vramHint, EstimateFrom(p, memoryHint, vramHint))
  {
    hide EstimateFrom, PaddedBasis, UsualTime, MeanCores;
    MemoryIsPaddedBasis(p, memoryHint, vramHint);
    VramIsPaddedBasis(p, memoryHint, vramHint);
    TheRestIsMeasured(p, memoryHint, vramHint);
  }

  /** A hint decides, padded, whatever was observed. */
  lemma HintDecides(p: Profile, memoryHint: real, vramHint: real)
    ensures var e, n := EstimateFrom(p, Some(memoryHint), Some(vramHint)), |p.observations|;
      e.memory == Largest(0.1, Pad(memoryHint, n), p.floor) && e.vram == Largest(0.0, Pad(vramHint, n), None)
  {
    EstimateFromIsEstimate(p, Some(memoryHint), Some(vramHint));
    hide EstimateFrom, Pad, Largest;
  }

  /** Without a hint the VRAM estimate lies between the measured p90 and half as much again. */
  lemma VramNearNinetieth(p: Profile, memoryHint: Option<real>, x: real)
    requires p.observations != [] && Ninetieth(p.observations, Vram, x) && x >= 0.0
    ensures var vram := EstimateFrom(p, memoryHint, None).vram;
      x <= vram <= 1.5 * x && (|p.observations| >= 10 ==> vram == x)
  {
    hide EstimateFrom, Ninetieth, Pad;
    var vram, n := EstimateFrom(p, memoryHint, None).vram, |p.observations|;
    VramIsPaddedBasis(p, memoryHint, None);
    var y :| Basis(p.observations, Vram, None, 0.0, y) && vram == Largest(0.0, Pad(y, n), None);
    NinetiethIsUnique(p.observations, Vram, x, y);
    PaddedNear(x, n);
  }

  lemma PaddedNear(x: real, n: nat)
    requires x >= 0.0
    ensures x <= Largest(0.0, Pad(x, n), None) <= 1.5 * x
    ensures n >= 10 ==> Largest(0.0, Pad(x, n), None) == x
  {
    var pad := Padding(n);
    var product := x * pad;
    Between(x, pad, product);
  }
}
