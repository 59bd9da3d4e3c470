/** How a receiver splits its prepared response slots among the senders. */
module Partition {
  import opened Arithmetic

  /** First slot of the slice of node `id` when `maxNodeId` slices share `prepared` slots. */
  function SliceFrom(prepared: nat, maxNodeId: nat, id: nat): nat
    requires maxNodeId > 0
  {
    id * (prepared / maxNodeId)
  }

  /** Last slot of the slice; -1 for an empty slice at 0. The last slice takes what the division leaves over. */
  function SliceTo(prepared: nat, maxNodeId: nat, id: nat): int
    requires maxNodeId > 0
  {
    if id == maxNodeId - 1 then prepared - 1 else (id + 1) * (prepared / maxNodeId) - 1
  }

  method Partition(currentNodeId: nat, maxNodeId: nat, prepared: nat) returns (ok: bool, from: int, to: int)
    requires maxNodeId > 0
    ensures ok && from == SliceFrom(prepared, maxNodeId, currentNodeId) && to == SliceTo(prepared, maxNodeId, currentNodeId)
    ensures currentNodeId < maxNodeId ==> 0 <= from <= prepared && to < prepared
  {
    from := currentNodeId * (prepared / maxNodeId);
    to := (currentNodeId + 1) * (prepared / maxNodeId) - 1;
    if currentNodeId == maxNodeId - 1 {
      to := prepared - 1;
    }
    ok := true;
    if currentNodeId < maxNodeId {
      MulMonotone(currentNodeId, maxNodeId, prepared / maxNodeId);
      MulMonotone(currentNodeId + 1, maxNodeId, prepared / maxNodeId);
    }
  }

  ghost predicate InSlice(prepared: nat, maxNodeId: nat, id: nat, slot: nat)
    requires maxNodeId > 0
  {
    SliceFrom(prepared, maxNodeId, id) <= slot <= SliceTo(prepared, maxNodeId, id)
  }

  /** Slices lie inside the prepared slots and slices of different nodes are disjoint and ordered. */
  lemma SlicesDisjoint(prepared: nat, maxNodeId: nat, id: nat, other: nat)
    requires maxNodeId > 0 && id < other < maxNodeId
    ensures SliceTo(prepared, maxNodeId, id) < SliceFrom(prepared, maxNodeId, other)
    ensures SliceTo(prepared, maxNodeId, other) < prepared
  {
    var q := prepared / maxNodeId;
    MulMonotone(id + 1, other, q);
    MulMonotone(other + 1, maxNodeId, q);
  }

  /** All slices but the last hold equally many slots, and the last these and what the division leaves over. */
  lemma SliceSizes(prepared: nat, maxNodeId: nat, id: nat)
    requires maxNodeId > 0 && id < maxNodeId
    ensures var size := SliceTo(prepared, maxNodeId, id) + 1 - SliceFrom(prepared, maxNodeId, id);
            size == prepared / maxNodeId + if id + 1 < maxNodeId then 0 else prepared % maxNodeId
  {
    ProductStep(id, prepared / maxNodeId);
  }

  /** Every prepared slot belongs to exactly one slice. */
  lemma SlicesCover(prepared: nat, maxNodeId: nat, slot: nat) returns (id: nat)
    requires maxNodeId > 0 && slot < prepared
    ensures id < maxNodeId && InSlice(prepared, maxNodeId, id, slot)
    ensures forall other: nat :: other < maxNodeId && InSlice(prepared, maxNodeId, other, slot) ==> other == id
  {
    var q := prepared / maxNodeId;
    id := Locate(prepared, maxNodeId, slot, maxNodeId - 1);
    forall other: nat | other < maxNodeId && InSlice(prepared, maxNodeId, other, slot) ensures other == id {
      if other < id {
        SlicesDisjoint(prepared, maxNodeId, other, id);
      } else if id < other {
        SlicesDisjoint(prepared, maxNodeId, id, other);
      }
    }
  }

  lemma {:induction false} Locate(prepared: nat, maxNodeId: nat, slot: nat, top: nat) returns (id: nat)
    requires maxNodeId > 0 && top < maxNodeId && slot <= SliceTo(prepared, maxNodeId, top)
    ensures id <= top && InSlice(prepared, maxNodeId, id, slot)
  {
    if SliceFrom(prepared, maxNodeId, top) <= slot {
      id := top;
    } else {
      id := Locate(prepared, maxNodeId, slot, top - 1);
    }
  }

  /** A sender may compute `random % (to - from) + from` for every slice exactly if each holds two slots. */
  lemma SlicesUsable(prepared: nat, maxNodeId: nat)
    requires maxNodeId > 0
    ensures (forall id: nat :: id < maxNodeId ==> SliceFrom(prepared, maxNodeId, id) < SliceTo(prepared, maxNodeId, id))
            <==> prepared / maxNodeId >= 2
  {
    if prepared / maxNodeId >= 2 {
      forall id: nat | id < maxNodeId ensures SliceFrom(prepared, maxNodeId, id) < SliceTo(prepared, maxNodeId, id) {
        SliceUsable(prepared, maxNodeId, id);
      }
    } else {
      assert SliceFrom(prepared, maxNodeId, 0) == 0;
      assert SliceTo(prepared, maxNodeId, 0) <= 0;
    }
  }

  lemma SliceUsable(prepared: nat, maxNodeId: nat, id: nat)
    requires maxNodeId > 0 && id < maxNodeId && prepared / maxNodeId >= 2
    ensures SliceFrom(prepared, maxNodeId, id) < SliceTo(prepared, maxNodeId, id)
  {
    var q := prepared / maxNodeId;
    assert (id + 1) * q == id * q + q;
    assert maxNodeId * q <= prepared;
  }
}
