/** In which order the GPUs come: from the index onwards, around the rotation. */
module Rotation {
  import opened Quantities
  import opened Admission

  /** The place `k` on from index `rr`, around the rotation. */
  function Place(order: seq<int>, rr: int, k: int): (i: int)
    requires order != []
    ensures 0 <= i < |order|
  {
    (rr + k) % |order|
  }

  /** The GPU that stands there. */
  function Onward(order: seq<int>, rr: int, k: int): int
    requires order != []
  {
    order[Place(order, rr, k)]
  }

  /** That GPU has room. */
  ghost predicate RoomOnward(order: seq<int>, gpu: map<int, Amount>, vram: real, rr: int, k: int) {
    0 <= k < |order| && HasRoom(gpu, Onward(order, rr, k), vram)
  }

  /** It is the first that has. */
  ghost predicate FirstRoom(order: seq<int>, gpu: map<int, Amount>, vram: real, rr: int, k: int) {
    RoomOnward(order, gpu, vram, rr, k) && forall j :: 0 <= j < k ==> !RoomOnward(order, gpu, vram, rr, j)
  }

  /** One place on, counted from a position or from the index, is the same. */
  lemma OneOn(x: int, n: int)
    requires n > 0
    ensures (x % n + 1) % n == (x + 1) % n
  {
    var r := x % n;
    Divided(x, n);
    if r + 1 < n {
      Remainder(x + 1, n, x / n, r + 1);
      Remainder(r + 1, n, 0, r + 1);
    } else {
      Distributes(x / n + 1, 1, n);
      Remainder(x + 1, n, x / n + 1, 0);
      Remainder(n, n, 1, 0);
    }
  }

  lemma Divided(x: int, n: int)
    requires n > 0
    ensures x == x / n * n + x % n
  {
  }

  lemma Distributes(a: int, b: int, n: int)
    ensures (a - b) * n == a * n - b * n
  {
  }

  lemma Remainder(x: int, n: int, q: int, r: int)
    requires n > 0 && x == q * n + r && 0 <= r < n
    ensures x % n == r
  {
    var p := x / n;
    Divided(x, n);
    Distributes(p, q, n);
    SmallMultiple(p - q, n, r - x % n);
  }

  /** The list of options, by the offsets they stand at. */
  ghost predicate OptionsAt(order: seq<int>, gpu: map<int, Amount>, vram: real, rr: int, options: seq<Choice>,
                            offsets: seq<int>, n: int) {
    && |offsets| == |options|
    && (forall i, j :: 0 <= i < j < |offsets| ==> offsets[i] < offsets[j])
    && (forall i :: 0 <= i < |offsets| ==>
          && 0 <= offsets[i] < n && RoomOnward(order, gpu, vram, rr, offsets[i])
          && options[i] == Choice(Some(Onward(order, rr, offsets[i])), Place(order, rr, offsets[i] + 1)))
    && (forall k :: 0 <= k < n && RoomOnward(order, gpu, vram, rr, k) ==> k in offsets)
  }

  /** The option at offset `n - 1`, if that GPU has room, comes last. */
  lemma LastOption(order: seq<int>, gpu: map<int, Amount>, vram: real, rr: int, n: nat)
    requires 0 < n <= |order|
    ensures OptionsUpTo(order, gpu, vram, rr, n) == OptionsUpTo(order, gpu, vram, rr, n - 1)
      + (if HasRoom(gpu, Onward(order, rr, n - 1), vram)
         then [Choice(Some(Onward(order, rr, n - 1)), Place(order, rr, n))] else [])
  {
    OneOn(rr + n - 1, |order|);
    hide HasRoom;
  }

  lemma {:induction false} OptionsUpToAreOnward(order: seq<int>, gpu: map<int, Amount>, vram: real, rr: int, n: nat)
    returns (offsets: seq<int>)
    requires n <= |order|
    ensures OptionsAt(order, gpu, vram, rr, OptionsUpTo(order, gpu, vram, rr, n), offsets, n)
  {
    offsets := [];
    if n > 0 {
      offsets := OptionsUpToAreOnward(order, gpu, vram, rr, n - 1);
      LastOption(order, gpu, vram, rr, n);
      hide OptionsUpTo, Place, Onward, HasRoom;
      if RoomOnward(order, gpu, vram, rr, n - 1) {
        offsets := offsets + [n - 1];
      }
    }
  }

  /** The options are exactly the GPUs with room, in the order in which the rotation comes to them
      from the index onwards, and each leaves the index one place after its GPU. */
  lemma OptionsAreOnward(order: seq<int>, gpu: map<int, Amount>, vram: real, rr: int) returns (offsets: seq<int>)
    ensures OptionsAt(order, gpu, vram, rr, GpuOptions(order, gpu, vram, rr), offsets, |order|)
  {
    offsets := OptionsUpToAreOnward(order, gpu, vram, rr, |order|);
  }

  /** What the first-fit comes to: the first GPU with room from the index onwards, and the index
      one place after it; or no GPU, and the index unmoved, if none has room. */
  ghost predicate PicksFirst(order: seq<int>, gpu: map<int, Amount>, vram: real, rr: int, c: Choice) {
    && (forall k :: FirstRoom(order, gpu, vram, rr, k) ==>
          c == Choice(Some(Onward(order, rr, k)), Place(order, rr, k + 1)))
    && ((exists k :: FirstRoom(order, gpu, vram, rr, k))
        || (c == Choice(None, rr) && forall k :: !RoomOnward(order, gpu, vram, rr, k)))
  }

  lemma PickIsFirst(order: seq<int>, gpu: map<int, Amount>, vram: real, rr: int)
    ensures PicksFirst(order, gpu, vram, rr, PickGpu(order, gpu, vram, rr))
  {
    var offsets := OptionsAreOnward(order, gpu, vram, rr);
    hide GpuOptions;
    if offsets != [] {
      forall k | RoomOnward(order, gpu, vram, rr, k) ensures offsets[0] <= k {
        var i :| 0 <= i < |offsets| && offsets[i] == k;
      }
      assert FirstRoom(order, gpu, vram, rr, offsets[0]);
    }
  }
}
