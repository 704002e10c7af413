/** Resource commitment: how much of a running task's estimate has not yet shown up as use. */
module Accounting {
  import opened Quantities

  datatype Usage = Usage(gpu: Option<int>, estimate: real, observed: real)

  /** The unrealized remainder of an estimate. */
  function CommittedGb(estimate: real, observed: real): real {
    var remainder := estimate - observed;
    if remainder > 0.0 then remainder else 0.0
  }

  function TotalCommitted(usages: seq<Usage>): real {
    if usages == [] then 0.0
    else
      var u := usages[|usages| - 1];
      TotalCommitted(usages[..|usages| - 1]) + CommittedGb(u.estimate, u.observed)
  }

  /** What is committed on one GPU; an unpinned task commits nothing anywhere. */
  function CommittedOn(usages: seq<Usage>, g: int): real {
    if usages == [] then 0.0
    else
      var u := usages[|usages| - 1];
      CommittedOn(usages[..|usages| - 1], g) + (if u.gpu == Some(g) then CommittedGb(u.estimate, u.observed) else 0.0)
  }

  /** Realized use and commitment together cover the estimate and the use, and no more:
      nothing is counted twice and nothing is forgotten. */
  lemma CreditIsExact(estimate: real, observed: real)
    ensures observed + CommittedGb(estimate, observed) == if observed < estimate then estimate else observed
    ensures observed >= 0.0 && estimate >= 0.0 ==> 0.0 <= CommittedGb(estimate, observed) <= estimate
  {
  }

  /** Observing more never commits more. */
  lemma {:induction false} CommitmentShrinksWithUse(before: seq<Usage>, after: seq<Usage>)
    requires |before| == |after|
    requires forall i :: 0 <= i < |before| ==>
      after[i].estimate == before[i].estimate && before[i].observed <= after[i].observed
    ensures 0.0 <= TotalCommitted(after) <= TotalCommitted(before)
  {
    if before != [] {
      CommitmentShrinksWithUse(before[..|before| - 1], after[..|after| - 1]);
    }
  }

  lemma {:induction false} CommittedOnNonNegative(usages: seq<Usage>, g: int)
    ensures CommittedOn(usages, g) >= 0.0
    ensures TotalCommitted(usages) >= 0.0
  {
    if usages != [] {
      CommittedOnNonNegative(usages[..|usages| - 1], g);
    }
  }

  /** The per-GPU table: exactly the pinned GPUs, each with what is committed on it. */
  method CommittedVramPerGpu(usages: seq<Usage>) returns (table: map<int, real>)
    ensures forall g :: g in table <==> exists i :: 0 <= i < |usages| && usages[i].gpu == Some(g)
    ensures forall g :: g in table ==> table[g] == CommittedOn(usages, g)
    ensures forall g :: g !in table ==> CommittedOn(usages, g) == 0.0
  {
    table := map[];
    var i := 0;
    while i < |usages|
      invariant 0 <= i <= |usages|
      invariant forall g :: g in table <==> exists k :: 0 <= k < i && usages[k].gpu == Some(g)
      invariant forall g :: (if g in table then table[g] else 0.0) == CommittedOn(usages[..i], g)
    {
      var u := usages[i];
      assert usages[..i + 1][..i] == usages[..i];
      if u.gpu.Some? {
        var g := u.gpu.value;
        table := table[g := (if g in table then table[g] else 0.0) + CommittedGb(u.estimate, u.observed)];
      }
      i := i + 1;
    }
    assert usages[..i] == usages;
  }
}
