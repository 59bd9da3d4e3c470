/**
 The first-fit allocator on values: the sorted list of free blocks and the map of used ones, exactly as the
 list code changes them, next to a byte-level reading of both.
 */
module FreeList {
  import opened Arithmetic

  datatype Mem = Mem(size: nat, free: bool, offset: nat, isnull: bool)

  const NULL_MEM := Mem(0, false, 0, true)

  datatype Heap = Heap(free: seq<Mem>, used: map<nat, Mem>)

  function Block(size: nat, free: bool, offset: nat): Mem { Mem(size, free, offset, false) }

  /* ---- what the list code computes ---- */

  predicate Fits(m: Mem, size: nat) { m.free && m.size >= size }

  /** First entry from i on that is free and large enough. */
  function FitFrom(mem: seq<Mem>, size: nat, i: nat): (k: nat)
    requires i <= |mem|
    ensures i <= k <= |mem| && (k < |mem| ==> Fits(mem[k], size))
    ensures forall j :: i <= j < k ==> !Fits(mem[j], size)
    decreases |mem| - i
  {
    if i == |mem| || Fits(mem[i], size) then i else FitFrom(mem, size, i + 1)
  }

  /** The list with the first `size` bytes of entry k taken away. */
  function TakeFrom(mem: seq<Mem>, k: nat, size: nat): seq<Mem>
    requires k < |mem| && mem[k].size >= size
  {
    mem[..k] +
    (if mem[k].size > size then [Block(mem[k].size - size, true, mem[k].offset + size)] else []) +
    mem[k + 1..]
  }

  function Alloc(h: Heap, size: nat): (Heap, Mem) {
    var k := FitFrom(h.free, size, 0);
    if k < |h.free| then
      var m := Block(size, false, h.free[k].offset);
      (Heap(TakeFrom(h.free, k, size), h.used[m.offset := m]), m)
    else
      (h, NULL_MEM)
  }

  /** Sum of the offsets of the first i entries: what the release loop compares an offset with. */
  function SumOffsets(mem: seq<Mem>, i: nat): nat
    requires i <= |mem|
  {
    if i == 0 then 0 else SumOffsets(mem, i - 1) + mem[i - 1].offset
  }

  predicate Before(mem: seq<Mem>, offset: nat, i: nat)
    requires i < |mem|
  {
    SumOffsets(mem, i) <= offset < mem[i].offset
  }

  /** First entry from i on the release loop inserts before. */
  function PlaceFrom(mem: seq<Mem>, offset: nat, i: nat): (k: nat)
    requires i <= |mem|
    ensures i <= k <= |mem| && (k < |mem| ==> Before(mem, offset, k))
    ensures forall j :: i <= j < k ==> !Before(mem, offset, j)
    decreases |mem| - i
  {
    if i == |mem| || Before(mem, offset, i) then i else PlaceFrom(mem, offset, i + 1)
  }

  function Insert(mem: seq<Mem>, k: nat, x: Mem): seq<Mem>
    requires k <= |mem|
  {
    mem[..k] + [x] + mem[k..]
  }

  function End(m: Mem): nat { m.offset + m.size }

  predicate Touches(m: Mem, next: Mem) { m.offset + m.size == next.offset }

  /** Entry i joined with its successor. */
  function Join(mem: seq<Mem>, i: nat): seq<Mem>
    requires i + 1 < |mem|
  {
    mem[..i] + [mem[i].(size := mem[i].size + mem[i + 1].size)] + mem[i + 2..]
  }

  function MergePrevious(mem: seq<Mem>, i: nat): (seq<Mem>, nat)
    requires i < |mem|
  {
    if i > 0 && Touches(mem[i - 1], mem[i]) then (Join(mem, i - 1), i - 1) else (mem, i)
  }

  /** Entry i joined with its neighbours where they touch. */
  function Merge(mem: seq<Mem>, i: nat): seq<Mem>
    requires i < |mem|
  {
    var (joined, j) := MergePrevious(mem, i);
    if j + 1 < |joined| && Touches(mem[i], joined[j + 1]) then Join(joined, j) else joined
  }

  /** The used entry at an offset; a null block if there is none. */
  function Taken(used: map<nat, Mem>, offset: nat): Mem {
    if offset in used then used[offset] else NULL_MEM
  }

  /** Releasing the block at an offset. The used entry is gone even when the call throws (false). */
  function Free(h: Heap, offset: nat): (Heap, bool) {
    var x := Taken(h.used, offset).(free := true);
    var used := h.used - {offset};
    if h.free == [] then (Heap([x], used), true)
    else
      var k := PlaceFrom(h.free, offset, 0);
      if k < |h.free| then (Heap(Merge(Insert(h.free, k, x), k), used), true) else (Heap(h.free, used), false)
  }

  function Init(limit: nat): Heap { Heap([Block(limit, true, 0)], map[]) }

  /* ---- bytes ---- */

  predicate Covers(m: Mem, b: int) { m.offset <= b < m.offset + m.size }

  ghost predicate InFree(mem: seq<Mem>, b: nat) { exists i :: 0 <= i < |mem| && Covers(mem[i], b) }

  ghost predicate InUsed(used: map<nat, Mem>, b: nat) { exists o :: o in used && Covers(used[o], b) }

  ghost predicate InLost(lost: set<Mem>, b: nat) { exists m :: m in lost && Covers(m, b) }

  /** Sorted free blocks with a gap of used bytes between any two of them. */
  ghost predicate Canonical(mem: seq<Mem>, limit: nat) {
    && (forall i :: 0 <= i < |mem| ==>
          mem[i].free && !mem[i].isnull && mem[i].size > 0 && mem[i].offset + mem[i].size <= limit)
    && (forall i, j :: 0 <= i < j < |mem| ==> mem[i].offset + mem[i].size < mem[j].offset)
  }

  /** Used blocks under their own offsets, no two of them sharing a byte. */
  ghost predicate UsedOk(used: map<nat, Mem>, limit: nat) {
    && (forall o :: o in used ==>
          used[o] == Block(used[o].size, false, o) && used[o].size > 0 && o + used[o].size <= limit)
    && (forall o, p :: o in used && p in used && o < p ==> o + used[o].size <= p)
  }

  /** Every byte below the limit is free, or used, or lost by a release that threw, and only one of these. */
  ghost predicate Shared(h: Heap, lost: set<Mem>, limit: nat) {
    forall b: nat ::
      && (b < limit <==> InFree(h.free, b) || InUsed(h.used, b) || InLost(lost, b))
      && !(InFree(h.free, b) && InUsed(h.used, b))
      && !(InFree(h.free, b) && InLost(lost, b))
      && !(InUsed(h.used, b) && InLost(lost, b))
  }

  ghost predicate Sound(h: Heap, lost: set<Mem>, limit: nat) {
    Canonical(h.free, limit) && UsedOk(h.used, limit) && Shared(h, lost, limit)
  }

  lemma InitSound(limit: nat)
    requires limit > 0
    ensures Sound(Init(limit), {}, limit)
  {
    forall b: nat ensures InFree(Init(limit).free, b) <==> b < limit {
      assert Covers(Init(limit).free[0], b) <==> b < limit;
    }
  }

  /* ---- allocation ---- */

  /** Taking bytes from a free block removes exactly these bytes from the free ones. */
  lemma TakeBytes(mem: seq<Mem>, limit: nat, k: nat, size: nat)
    requires Canonical(mem, limit) && k < |mem| && 0 < size <= mem[k].size
    ensures Canonical(TakeFrom(mem, k, size), limit)
    ensures forall b: nat :: InFree(TakeFrom(mem, k, size), b) <==>
              InFree(mem, b) && !(mem[k].offset <= b < mem[k].offset + size)
  {
    if size == mem[k].size {
      TakeAll(mem, limit, k);
    } else {
      TakeSome(mem, limit, k, size);
      assert mem[k := Block(mem[k].size - size, true, mem[k].offset + size)] == TakeFrom(mem, k, size);
    }
  }

  lemma TakeAll(mem: seq<Mem>, limit: nat, k: nat)
    requires Canonical(mem, limit) && k < |mem|
    ensures Canonical(TakeFrom(mem, k, mem[k].size), limit)
    ensures forall b: nat :: InFree(TakeFrom(mem, k, mem[k].size), b) <==> InFree(mem, b) && !Covers(mem[k], b)
  {
    var rest := TakeFrom(mem, k, mem[k].size);
    assert forall i :: 0 <= i < |rest| ==> rest[i] == mem[if i < k then i else i + 1];
    forall b: nat ensures InFree(rest, b) <==> InFree(mem, b) && !Covers(mem[k], b) {
      if i :| 0 <= i < |mem| && Covers(mem[i], b) && i != k {
        assert Covers(rest[if i < k then i else i - 1], b);
      }
      if i :| 0 <= i < |rest| && Covers(rest[i], b) {
        assert Covers(mem[if i < k then i else i + 1], b);
      }
    }
  }

  lemma TakeSome(mem: seq<Mem>, limit: nat, k: nat, size: nat)
    requires Canonical(mem, limit) && k < |mem| && 0 < size < mem[k].size
    ensures var rest := mem[k := Block(mem[k].size - size, true, mem[k].offset + size)];
            Canonical(rest, limit) && forall b: nat :: InFree(rest, b) <==>
              InFree(mem, b) && !(mem[k].offset <= b < mem[k].offset + size)
  {
    var rest := mem[k := Block(mem[k].size - size, true, mem[k].offset + size)];
    forall b: nat ensures InFree(rest, b) <==> InFree(mem, b) && !(mem[k].offset <= b < mem[k].offset + size) {
      if i :| 0 <= i < |mem| && Covers(mem[i], b) && !(mem[k].offset <= b < mem[k].offset + size) {
        assert Covers(rest[i], b);
      }
      if i :| 0 <= i < |rest| && Covers(rest[i], b) {
        assert Covers(mem[i], b);
      }
    }
  }

  /** An allocation keeps the heap sound; what it returns was free and is used now. */
  lemma AllocKeeps(h: Heap, lost: set<Mem>, limit: nat, size: nat)
    requires Sound(h, lost, limit) && size > 0
    ensures Sound(Alloc(h, size).0, lost, limit)
    ensures var (h', m) := Alloc(h, size);
            if m.isnull then h' == h
            else m == Block(size, false, m.offset) && h'.used == h.used[m.offset := m] && m.offset !in h.used
                 && forall b: nat :: InFree(h'.free, b) <==> InFree(h.free, b) && !Covers(m, b)
  {
    var k := FitFrom(h.free, size, 0);
    if k < |h.free| {
      var (h', m) := Alloc(h, size);
      TakeBytes(h.free, limit, k, size);
      forall b: nat | Covers(m, b) ensures InFree(h.free, b) {
        assert Covers(h.free[k], b);
      }
      UseBytes(h, lost, limit, m, h'.free);
    }
  }

  /** Free bytes that become a used block. */
  lemma UseBytes(h: Heap, lost: set<Mem>, limit: nat, m: Mem, free: seq<Mem>)
    requires Sound(h, lost, limit) && m == Block(m.size, false, m.offset) && m.size > 0
    requires forall b: nat :: Covers(m, b) ==> InFree(h.free, b)
    requires Canonical(free, limit)
    requires forall b: nat :: InFree(free, b) <==> InFree(h.free, b) && !Covers(m, b)
    ensures m.offset !in h.used && Sound(Heap(free, h.used[m.offset := m]), lost, limit)
  {
    hide Canonical;
    forall o | o in h.used ensures o != m.offset && !Overlap(h.used[o], m) {
      DisjointFromFree(h, lost, limit, o, m);
    }
    var used := h.used[m.offset := m];
    assert Covers(m, m.offset + m.size - 1) && InFree(h.free, m.offset + m.size - 1);
    forall b: nat ensures InUsed(used, b) <==> InUsed(h.used, b) || Covers(m, b) {
      if Covers(m, b) {
        assert Covers(used[m.offset], b);
      }
      if o :| o in h.used && Covers(h.used[o], b) {
        assert Covers(used[o], b);
      }
    }
  }

  predicate Overlap(x: Mem, y: Mem) { x.offset < y.offset + y.size && y.offset < x.offset + x.size }

  lemma DisjointFromFree(h: Heap, lost: set<Mem>, limit: nat, o: nat, m: Mem)
    requires Sound(h, lost, limit) && o in h.used && m.size > 0
    requires forall b: nat :: Covers(m, b) ==> InFree(h.free, b)
    ensures o != m.offset && !Overlap(h.used[o], m)
  {
    var x := h.used[o];
    var b := if o <= m.offset then m.offset else o;
    if Overlap(x, m) || o == m.offset {
      assert Covers(x, b) && Covers(m, b);
      assert InFree(h.free, b) && InUsed(h.used, b);
    }
  }

  /* ---- first fit ---- */

  ghost predicate FreeRun(mem: seq<Mem>, a: nat, size: nat) {
    forall b: nat :: a <= b < a + size ==> InFree(mem, b)
  }

  /** Because neighbours are always joined, consecutive free bytes lie in one block. */
  lemma {:induction false} RunInOneBlock(mem: seq<Mem>, limit: nat, a: nat, size: nat) returns (i: nat)
    requires Canonical(mem, limit) && size > 0 && FreeRun(mem, a, size)
    ensures i < |mem| && mem[i].offset <= a && a + size <= mem[i].offset + mem[i].size
  {
    assert InFree(mem, a + size - 1);
    if size == 1 {
      i :| 0 <= i < |mem| && Covers(mem[i], a);
    } else {
      i := RunInOneBlock(mem, limit, a, size - 1);
      var j :| 0 <= j < |mem| && Covers(mem[j], a + size - 1);
    }
  }

  /** An allocation fails exactly if no such run of free bytes exists, and otherwise returns the lowest one. */
  lemma AllocFirstFit(h: Heap, lost: set<Mem>, limit: nat, size: nat)
    requires Sound(h, lost, limit) && size > 0
    ensures var m := Alloc(h, size).1;
            && (m.isnull <==> forall a: nat :: !FreeRun(h.free, a, size))
            && (!m.isnull ==> FreeRun(h.free, m.offset, size)
                              && forall a: nat :: FreeRun(h.free, a, size) ==> m.offset <= a)
  {
    var k := FitFrom(h.free, size, 0);
    forall a: nat | FreeRun(h.free, a, size) ensures k < |h.free| && h.free[k].offset <= a {
      var i := RunInOneBlock(h.free, limit, a, size);
      assert Fits(h.free[i], size);
    }
    if k < |h.free| {
      forall b: nat | h.free[k].offset <= b < h.free[k].offset + size ensures InFree(h.free, b) {
        assert Covers(h.free[k], b);
      }
      assert FreeRun(h.free, h.free[k].offset, size);
    }
  }

  ghost predicate UnusedRun(used: map<nat, Mem>, limit: nat, a: nat, size: nat) {
    a + size <= limit && forall b: nat :: a <= b < a + size ==> !InUsed(used, b)
  }

  /** If no release has thrown, free means unused: the list scan is byte-level first fit. */
  lemma AllocRefinesFirstFit(h: Heap, limit: nat, size: nat)
    requires Sound(h, {}, limit) && size > 0
    ensures var m := Alloc(h, size).1;
            && (m.isnull <==> forall a: nat :: !UnusedRun(h.used, limit, a, size))
            && (!m.isnull ==> UnusedRun(h.used, limit, m.offset, size)
                              && forall a: nat :: UnusedRun(h.used, limit, a, size) ==> m.offset <= a)
  {
    AllocFirstFit(h, {}, limit, size);
    forall a: nat ensures UnusedRun(h.used, limit, a, size) <==> FreeRun(h.free, a, size) {
      assert FreeRun(h.free, a, size) ==> InFree(h.free, a + size - 1);
    }
  }

  lemma AllocWasFree(h: Heap, lost: set<Mem>, limit: nat, size: nat)
    requires Sound(h, lost, limit) && size > 0
    ensures var m := Alloc(h, size).1; !m.isnull ==> forall b: nat :: Covers(m, b) ==> InFree(h.free, b)
  {
    AllocFirstFit(h, lost, limit, size);
  }

  /* ---- release ---- */

  ghost predicate Apart(mem: seq<Mem>, x: Mem) {
    forall i :: 0 <= i < |mem| ==> !Overlap(mem[i], x)
  }

  /** Number of free blocks below an offset; the list being sorted, they are the first ones. */
  function CountBelow(mem: seq<Mem>, offset: nat): (k: nat)
    ensures k <= |mem|
  {
    if mem == [] then 0
    else CountBelow(mem[..|mem| - 1], offset) + if mem[|mem| - 1].offset < offset then 1 else 0
  }

  /** Entries of a sorted list below an offset form a prefix. */
  lemma {:induction false} BelowIsPrefix(mem: seq<Mem>, limit: nat, offset: nat)
    requires Canonical(mem, limit)
    ensures forall i :: 0 <= i < |mem| ==> (mem[i].offset < offset <==> i < CountBelow(mem, offset))
  {
    if mem != [] {
      var n := |mem| - 1;
      BelowIsPrefix(mem[..n], limit, offset);
      assert forall i :: 0 <= i < n ==> mem[i] == mem[..n][i];
    }
  }

  lemma {:induction false} SumGrows(mem: seq<Mem>, i: nat, j: nat)
    requires i <= j <= |mem|
    ensures SumOffsets(mem, i) <= SumOffsets(mem, j)
  {
    if i < j {
      SumGrows(mem, i, j - 1);
    }
  }

  /** Exactly when a release finds its place, and that it is the right one. */
  lemma PlaceIff(mem: seq<Mem>, limit: nat, offset: nat)
    requires Canonical(mem, limit) && forall i :: 0 <= i < |mem| ==> mem[i].offset != offset
    ensures var k := CountBelow(mem, offset);
            PlaceFrom(mem, offset, 0) == if k < |mem| && SumOffsets(mem, k) <= offset then k else |mem|
  {
    var k := CountBelow(mem, offset);
    BelowIsPrefix(mem, limit, offset);
    var p := PlaceFrom(mem, offset, 0);
    assert k < |mem| && SumOffsets(mem, k) <= offset ==> Before(mem, offset, k);
    if p < |mem| {
      assert Before(mem, offset, p);
      SumGrows(mem, k, p);
    }
  }

  /** Inserting a block between its neighbours and joining where they touch. */
  lemma MergeBytes(mem: seq<Mem>, limit: nat, k: nat, x: Mem)
    requires Canonical(mem, limit) && k <= |mem| && Apart(mem, x)
    requires x == Block(x.size, true, x.offset) && x.size > 0 && x.offset + x.size <= limit
    requires forall i :: 0 <= i < |mem| ==> (mem[i].offset < x.offset <==> i < k)
    ensures Canonical(Merge(Insert(mem, k, x), k), limit)
    ensures forall b: nat :: InFree(Merge(Insert(mem, k, x), k), b) <==> InFree(mem, b) || Covers(x, b)
  {
    hide Merge, Canonical, Loose;
    InsertLoose(mem, limit, k, x);
    InsertBytes(mem, k, x);
    MergeLoose(Insert(mem, k, x), limit, k);
  }

  lemma InsertLoose(mem: seq<Mem>, limit: nat, k: nat, x: Mem)
    requires Canonical(mem, limit) && k <= |mem| && Apart(mem, x)
    requires x == Block(x.size, true, x.offset) && x.size > 0 && x.offset + x.size <= limit
    requires forall i :: 0 <= i < |mem| ==> (mem[i].offset < x.offset <==> i < k)
    ensures Loose(Insert(mem, k, x), limit, k)
  {
    var all := Insert(mem, k, x);
    assert forall i :: 0 <= i < |all| ==> all[i] == if i < k then mem[i] else if i == k then x else mem[i - 1];
    hide Insert;
    forall i | 0 <= i < |mem| ensures if i < k then End(mem[i]) <= x.offset else End(x) <= mem[i].offset {
      assert !Overlap(mem[i], x);
    }
  }

  lemma InsertBytes(mem: seq<Mem>, k: nat, x: Mem)
    requires k <= |mem|
    ensures forall b: nat :: InFree(Insert(mem, k, x), b) <==> InFree(mem, b) || Covers(x, b)
  {
    var all := Insert(mem, k, x);
    forall b: nat ensures InFree(all, b) <==> InFree(mem, b) || Covers(x, b) {
      assert Covers(all[k], b) <==> Covers(x, b);
      if i :| 0 <= i < |mem| && Covers(mem[i], b) {
        assert Covers(all[if i < k then i else i + 1], b);
      }
      if i :| 0 <= i < |all| && Covers(all[i], b) {
        assert i != k ==> Covers(mem[if i < k then i else i - 1], b);
      }
    }
  }

  /** Canonical but for entry k, which may touch its neighbours. */
  ghost predicate Loose(mem: seq<Mem>, limit: nat, k: nat) {
    && (forall i :: 0 <= i < |mem| ==>
          mem[i].free && !mem[i].isnull && mem[i].size > 0 && mem[i].offset + mem[i].size <= limit)
    && (forall i, j :: 0 <= i < j < |mem| ==>
          if i == k || j == k then mem[i].offset + mem[i].size <= mem[j].offset
          else mem[i].offset + mem[i].size < mem[j].offset)
  }

  /** Joining two touching entries changes no byte. */
  lemma JoinBytes(mem: seq<Mem>, i: nat)
    requires i + 1 < |mem| && Touches(mem[i], mem[i + 1])
    ensures forall b: nat :: InFree(Join(mem, i), b) <==> InFree(mem, b)
  {
    var joined := Join(mem, i);
    forall b: nat ensures InFree(joined, b) <==> InFree(mem, b) {
      if j :| 0 <= j < |mem| && Covers(mem[j], b) {
        assert Covers(joined[if j <= i then j else j - 1], b);
      }
      if j :| 0 <= j < |joined| && Covers(joined[j], b) {
        assert if j < i then Covers(mem[j], b) else if j > i then Covers(mem[j + 1], b)
               else Covers(mem[i], b) || Covers(mem[i + 1], b);
      }
    }
  }

  lemma MergeLoose(mem: seq<Mem>, limit: nat, k: nat)
    requires k < |mem| && Loose(mem, limit, k)
    ensures Canonical(Merge(mem, k), limit)
    ensures forall b: nat :: InFree(Merge(mem, k), b) <==> InFree(mem, b)
  {
    hide Join, Loose;
    var (joined, j) := MergePrevious(mem, k);
    PreviousLoose(mem, limit, k);
    NextLoose(joined, limit, j);
    if j + 1 < |joined| && Touches(mem[k], joined[j + 1]) {
      JoinBytes(joined, j);
    }
  }

  lemma PreviousLoose(mem: seq<Mem>, limit: nat, k: nat)
    requires k < |mem| && Loose(mem, limit, k)
    ensures var (joined, j) := MergePrevious(mem, k);
            && j < |joined| && Loose(joined, limit, j) && (j > 0 ==> !Touches(joined[j - 1], joined[j]))
            && End(joined[j]) == End(mem[k])
            && forall b: nat :: InFree(joined, b) <==> InFree(mem, b)
  {
    if k > 0 && Touches(mem[k - 1], mem[k]) {
      JoinBytes(mem, k - 1);
    }
  }

  /** With no neighbour touched before it, joining with the next one restores the gaps. */
  lemma NextLoose(mem: seq<Mem>, limit: nat, k: nat)
    requires k < |mem| && Loose(mem, limit, k) && (k > 0 ==> !Touches(mem[k - 1], mem[k]))
    ensures Canonical(if k + 1 < |mem| && Touches(mem[k], mem[k + 1]) then Join(mem, k) else mem, limit)
  {
    if k + 1 < |mem| && Touches(mem[k], mem[k + 1]) {
      JoinLoose(mem, limit, k);
    } else {
      forall i, j | 0 <= i < j < |mem| ensures End(mem[i]) < mem[j].offset {
        assert i == k ==> End(mem[k]) < mem[k + 1].offset;
        assert j == k ==> End(mem[i]) <= End(mem[k - 1]) < mem[k].offset;
      }
    }
  }

  lemma JoinLoose(mem: seq<Mem>, limit: nat, k: nat)
    requires k + 1 < |mem| && Loose(mem, limit, k) && (k > 0 ==> !Touches(mem[k - 1], mem[k]))
    requires Touches(mem[k], mem[k + 1])
    ensures Canonical(Join(mem, k), limit)
  {
    var joined := Join(mem, k);
    assert forall i :: 0 <= i < |joined| ==>
      joined[i] == if i < k then mem[i] else if i == k then mem[k].(size := mem[k].size + mem[k + 1].size) else mem[i + 1];
    hide Join;
    forall i, j | 0 <= i < j < |joined| ensures End(joined[i]) < joined[j].offset {
      LooseApart(mem, limit, k, i, j);
    }
  }

  /** Gaps that are there after joining entry k with the one after it. */
  lemma LooseApart(mem: seq<Mem>, limit: nat, k: nat, i: nat, j: nat)
    requires k + 1 < |mem| && Loose(mem, limit, k) && (k > 0 ==> !Touches(mem[k - 1], mem[k])) && i < j < |mem| - 1
    ensures End(mem[if i < k then i else i + 1]) < (if j <= k then mem[j] else mem[j + 1]).offset
  {
    if j == k {
      assert End(mem[i]) <= End(mem[k - 1]) < mem[k].offset;
    }
  }

  /** The block of a live offset overlaps no free block. */
  lemma LiveApart(h: Heap, lost: set<Mem>, limit: nat, offset: nat)
    requires Sound(h, lost, limit) && offset in h.used
    ensures Apart(h.free, h.used[offset])
    ensures forall i :: 0 <= i < |h.free| ==> h.free[i].offset != offset
  {
    var x := h.used[offset];
    forall i | 0 <= i < |h.free| ensures !Overlap(h.free[i], x) && h.free[i].offset != offset {
      var b := if h.free[i].offset <= offset then offset else h.free[i].offset;
      if Overlap(h.free[i], x) || h.free[i].offset == offset {
        assert Covers(h.free[i], b) && Covers(x, b);
        assert InFree(h.free, b) && InUsed(h.used, b);
      }
    }
  }

  /**
   A release of a live offset returns normally exactly if the list is empty, or some free block lies above the
   offset and the offsets of all free blocks below it add up to no more than it.
   */
  lemma FreeSucceedsIff(h: Heap, lost: set<Mem>, limit: nat, offset: nat)
    requires Sound(h, lost, limit) && offset in h.used
    ensures Free(h, offset).1 <==>
              || h.free == []
              || ((exists i :: 0 <= i < |h.free| && h.free[i].offset > offset)
                  && SumOffsets(h.free, CountBelow(h.free, offset)) <= offset)
  {
    LiveApart(h, lost, limit, offset);
    PlaceIff(h.free, limit, offset);
    BelowIsPrefix(h.free, limit, offset);
    var k := CountBelow(h.free, offset);
    assert k < |h.free| ==> h.free[k].offset > offset;
  }

  /** A release that returns gives exactly the block's bytes back; one that throws loses exactly these bytes. */
  lemma FreeKeeps(h: Heap, lost: set<Mem>, limit: nat, offset: nat)
    requires Sound(h, lost, limit) && offset in h.used
    ensures var (h', ok) := Free(h, offset);
            && h'.used == h.used - {offset}
            && (ok ==> Sound(h', lost, limit)
                       && forall b: nat :: InFree(h'.free, b) <==> InFree(h.free, b) || Covers(h.used[offset], b))
            && (!ok ==> h'.free == h.free && Sound(h', lost + {h.used[offset]}, limit))
  {
    var (h', ok) := Free(h, offset);
    var x := h.used[offset].(free := true);
    LiveApart(h, lost, limit, offset);
    RemoveUsed(h.used, limit, offset);
    PlaceIff(h.free, limit, offset);
    BelowIsPrefix(h.free, limit, offset);
    if ok {
      if h.free == [] {
        assert Merge(Insert(h.free, 0, x), 0) == h'.free;
      }
      MergeBytes(h.free, limit, if h.free == [] then 0 else CountBelow(h.free, offset), x);
    }
  }

  lemma RemoveUsed(used: map<nat, Mem>, limit: nat, offset: nat)
    requires UsedOk(used, limit) && offset in used
    ensures UsedOk(used - {offset}, limit)
    ensures forall b: nat :: InUsed(used - {offset}, b) <==> InUsed(used, b) && !Covers(used[offset], b)
  {
    var left := used - {offset};
    forall b: nat ensures InUsed(left, b) <==> InUsed(used, b) && !Covers(used[offset], b) {
      if o :| o in used && Covers(used[o], b) && !Covers(used[offset], b) {
        assert Covers(left[o], b);
      }
      if o :| o in left && Covers(left[o], b) {
        assert Covers(used[o], b);
        assert o < offset || offset < o;
      }
    }
  }

  /* ---- the free list is the canonical form of its bytes ---- */

  ghost predicate SameBytes(x: seq<Mem>, y: seq<Mem>) { forall b: nat :: InFree(x, b) <==> InFree(y, b) }

  lemma {:induction false} CanonicalUnique(x: seq<Mem>, y: seq<Mem>, limit: nat)
    requires Canonical(x, limit) && Canonical(y, limit)
    requires SameBytes(x, y)
    ensures x == y
  {
    hide Canonical, Covers;
    if x != [] {
      StartFree(x, limit);
    }
    if y != [] {
      StartFree(y, limit);
    }
    if x != [] && y != [] {
      var i, j := |x| - 1, |y| - 1;
      LastSame(x, y, limit);
      DropLast(x, limit);
      DropLast(y, limit);
      forall b: nat ensures InFree(x[..i], b) <==> InFree(y[..j], b) {
        assert InFree(x, b) <==> InFree(y, b);
      }
      CanonicalUnique(x[..i], y[..j], limit);
      assert x == x[..i] + [x[i]] && y == y[..j] + [y[j]];
    }
  }

  lemma StartFree(x: seq<Mem>, limit: nat)
    requires Canonical(x, limit) && x != []
    ensures InFree(x, x[0].offset)
  {
    assert Covers(x[0], x[0].offset);
  }

  lemma LastSame(x: seq<Mem>, y: seq<Mem>, limit: nat)
    requires Canonical(x, limit) && Canonical(y, limit) && x != [] && y != [] && SameBytes(x, y)
    ensures x[|x| - 1] == y[|y| - 1]
  {
    hide InFree, SameBytes;
    LastBlock(x, y, limit);
    BytesSymmetric(x, y);
    LastBlock(y, x, limit);
    SameStart(x, y, limit);
    SameStart(y, x, limit);
  }

  lemma BytesSymmetric(x: seq<Mem>, y: seq<Mem>)
    requires SameBytes(x, y)
    ensures SameBytes(y, x)
  {
    hide InFree;
  }

  lemma LastBlock(x: seq<Mem>, y: seq<Mem>, limit: nat)
    requires Canonical(x, limit) && Canonical(y, limit) && x != [] && y != []
    requires SameBytes(x, y)
    ensures End(x[|x| - 1]) <= End(y[|y| - 1])
  {
    var b := End(x[|x| - 1]) - 1;
    assert Covers(x[|x| - 1], b);
    assert InFree(y, b);
  }

  lemma SameStart(x: seq<Mem>, y: seq<Mem>, limit: nat)
    requires Canonical(x, limit) && Canonical(y, limit) && x != [] && y != []
    requires SameBytes(x, y)
    requires End(x[|x| - 1]) == End(y[|y| - 1])
    ensures x[|x| - 1].offset <= y[|y| - 1].offset
  {
    var m, n := x[|x| - 1], y[|y| - 1];
    GapBefore(x, limit);
    assert n.offset < m.offset ==> Covers(n, m.offset - 1);
  }

  lemma GapBefore(x: seq<Mem>, limit: nat)
    requires Canonical(x, limit) && x != []
    ensures x[|x| - 1].offset > 0 ==> !InFree(x, x[|x| - 1].offset - 1)
  {
  }

  lemma DropLast(x: seq<Mem>, limit: nat)
    requires Canonical(x, limit) && x != []
    ensures Canonical(x[..|x| - 1], limit)
    ensures forall b: nat :: InFree(x[..|x| - 1], b) <==> InFree(x, b) && !Covers(x[|x| - 1], b)
  {
    var n := |x| - 1;
    forall b: nat ensures InFree(x[..n], b) <==> InFree(x, b) && !Covers(x[n], b) {
      if i :| 0 <= i < |x| && Covers(x[i], b) && !Covers(x[n], b) {
        assert Covers(x[..n][i], b);
      }
      if i :| 0 <= i < n && Covers(x[..n][i], b) {
        assert Covers(x[i], b);
      }
    }
  }

  /** Allocating and then freeing the result without an exception restores the free list exactly. */
  lemma AllocThenFree(h: Heap, lost: set<Mem>, limit: nat, size: nat)
    requires Sound(h, lost, limit) && size > 0 && !Alloc(h, size).1.isnull
    ensures var (h1, m) := Alloc(h, size);
            Free(h1, m.offset).1 ==> Free(h1, m.offset).0 == h
  {
    hide FitFrom, TakeFrom, PlaceFrom, Merge, Insert, SumOffsets, Canonical, UsedOk, Shared, InFree;
    AllocKeeps(h, lost, limit, size);
    AllocWasFree(h, lost, limit, size);
    var (h1, m) := Alloc(h, size);
    FreeKeeps(h1, lost, limit, m.offset);
    var (h2, ok) := Free(h1, m.offset);
    if ok {
      assert SameBytes(h2.free, h.free);
      CanonicalUnique(h2.free, h.free, limit);
      assert h2.used == h.used;
    }
  }

  /** When all blocks have been freed without an exception, the list is the one initial block again. */
  lemma AllFreed(h: Heap, limit: nat)
    requires Sound(h, {}, limit) && limit > 0 && h.used == map[]
    ensures h == Init(limit)
  {
    InitSound(limit);
    forall b: nat ensures InFree(h.free, b) <==> InFree(Init(limit).free, b) {
      assert !InUsed(h.used, b) && !InUsed(Init(limit).used, b);
    }
    CanonicalUnique(h.free, Init(limit).free, limit);
  }

  /* ---- whole runs ---- */

  datatype Op = Allocate(size: nat) | Release(offset: nat)

  /** A heap and the blocks that releases which threw have lost. */
  datatype Record = Record(heap: Heap, lost: set<Mem>)

  function Apply(c: Record, op: Op): Record {
    match op
    case Allocate(size) => c.(heap := Alloc(c.heap, size).0)
    case Release(offset) =>
      var (h, ok) := Free(c.heap, offset);
      Record(h, if ok then c.lost else c.lost + {Taken(c.heap.used, offset)})
  }

  /** Allocations of at least one byte and releases of live offsets. */
  predicate Legal(c: Record, op: Op) {
    match op
    case Allocate(size) => size > 0
    case Release(offset) => offset in c.heap.used
  }

  predicate LegalRun(c: Record, ops: seq<Op>)
    decreases |ops|
  {
    ops == [] || (Legal(c, ops[0]) && LegalRun(Apply(c, ops[0]), ops[1..]))
  }

  function After(c: Record, ops: seq<Op>): Record
    decreases |ops|
  {
    if ops == [] then c else After(Apply(c, ops[0]), ops[1..])
  }

  /** No release of the run throws. */
  predicate Quiet(c: Record, ops: seq<Op>)
    decreases |ops|
  {
    ops == [] || ((ops[0].Release? ==> Free(c.heap, ops[0].offset).1) && Quiet(Apply(c, ops[0]), ops[1..]))
  }

  /** However a legal run goes, every byte stays accounted for; nothing is lost unless a release throws. */
  lemma {:induction false} RunKeeps(c: Record, limit: nat, ops: seq<Op>)
    requires Sound(c.heap, c.lost, limit) && LegalRun(c, ops)
    ensures var d := After(c, ops); Sound(d.heap, d.lost, limit) && (Quiet(c, ops) ==> d.lost == c.lost)
    decreases |ops|
  {
    hide Sound, Alloc, Free;
    if ops != [] {
      match ops[0] {
        case Allocate(size) => AllocKeeps(c.heap, c.lost, limit, size);
        case Release(offset) => FreeKeeps(c.heap, c.lost, limit, offset);
      }
      RunKeeps(Apply(c, ops[0]), limit, ops[1..]);
    }
  }

  /** The free list remembers nothing but which blocks are in use. */
  lemma FreeListForgets(limit: nat, ops: seq<Op>, others: seq<Op>)
    requires limit > 0 && var c := Record(Init(limit), {});
             LegalRun(c, ops) && Quiet(c, ops) && LegalRun(c, others) && Quiet(c, others)
             && After(c, ops).heap.used == After(c, others).heap.used
    ensures After(Record(Init(limit), {}), ops).heap.free == After(Record(Init(limit), {}), others).heap.free
  {
    hide After, LegalRun, Quiet;
    InitSound(limit);
    var c := Record(Init(limit), {});
    RunKeeps(c, limit, ops);
    RunKeeps(c, limit, others);
    var x, y := After(c, ops).heap, After(c, others).heap;
    forall b: nat ensures InFree(x.free, b) <==> InFree(y.free, b) {
      assert !InLost({}, b);
      assert InUsed(x.used, b) <==> InUsed(y.used, b);
    }
    CanonicalUnique(x.free, y.free, limit);
  }

  /** Freeing everything, in any order and without an exception, leaves the one initial block. */
  lemma EverythingFreed(limit: nat, ops: seq<Op>)
    requires limit > 0 && LegalRun(Record(Init(limit), {}), ops) && Quiet(Record(Init(limit), {}), ops)
    requires After(Record(Init(limit), {}), ops).heap.used == map[]
    ensures After(Record(Init(limit), {}), ops).heap == Init(limit)
  {
    hide After, LegalRun, Quiet;
    InitSound(limit);
    RunKeeps(Record(Init(limit), {}), limit, ops);
    AllFreed(After(Record(Init(limit), {}), ops).heap, limit);
  }

  /* ---- corner cases of the code ---- */

  /** A legal release that throws: memory is used up but for a block that lies below. */
  lemma LegalReleaseThrows()
    ensures var c := Record(Init(2), {});
            var ops := [Allocate(1), Allocate(1), Release(0), Release(1)];
            LegalRun(c, ops) && !Quiet(c, ops) && After(c, ops) == Record(Heap([Block(1, true, 0)], map[]), {Block(1, false, 1)})
  {
    var c := Record(Init(2), {});
    var c1 := Apply(c, Allocate(1));
    assert c1.heap == Heap([Block(1, true, 1)], map[0 := Block(1, false, 0)]);
    var c2 := Apply(c1, Allocate(1));
    assert c2.heap == Heap([], map[0 := Block(1, false, 0), 1 := Block(1, false, 1)]);
    var c3 := Apply(c2, Release(0));
    assert c3.heap == Heap([Block(1, true, 0)], map[1 := Block(1, false, 1)]);
    var c4 := Apply(c3, Release(1));
    assert PlaceFrom(c3.heap.free, 1, 0) == 1;
    assert c4 == Record(Heap([Block(1, true, 0)], map[]), {Block(1, false, 1)});
    RunOf4(c, Allocate(1), Allocate(1), Release(0), Release(1));
  }

  lemma RunOf(c: Record, op: Op, ops: seq<Op>)
    ensures After(c, [op] + ops) == After(Apply(c, op), ops)
    ensures LegalRun(c, [op] + ops) <==> Legal(c, op) && LegalRun(Apply(c, op), ops)
    ensures Quiet(c, [op] + ops) <==> (op.Release? ==> Free(c.heap, op.offset).1) && Quiet(Apply(c, op), ops)
  {
    assert ([op] + ops)[1..] == ops;
  }

  lemma RunOf4(c: Record, a: Op, b: Op, d: Op, e: Op)
    ensures var c1 := Apply(c, a); var c2 := Apply(c1, b); var c3 := Apply(c2, d);
            && After(c, [a, b, d, e]) == Apply(c3, e)
            && (LegalRun(c, [a, b, d, e]) <==> Legal(c, a) && Legal(c1, b) && Legal(c2, d) && Legal(c3, e))
            && (e.Release? && !Free(c3.heap, e.offset).1 ==> !Quiet(c, [a, b, d, e]))
  {
    hide Apply, Legal, Free;
    var c1 := Apply(c, a);
    var c2 := Apply(c1, b);
    RunOf(c, a, [b, d, e]);
    RunOf(c1, b, [d, e]);
    RunOf(c2, d, [e]);
    RunOf(Apply(c2, d), e, []);
    assert [a] + [b, d, e] == [a, b, d, e] && [b] + [d, e] == [b, d, e] && [d] + [e] == [d, e] && [e] + [] == [e];
  }

  /** A zero-size allocation takes no byte; the next one gets the same offset, and its used entry, if the first block has room. */
  lemma ZeroSizeShares(h: Heap, lost: set<Mem>, limit: nat, size: nat)
    requires Sound(h, lost, limit) && h.free != [] && size > 0
    ensures var (h1, m) := Alloc(h, 0);
            var (h2, n) := Alloc(h1, size);
            && !m.isnull && h1.free == h.free && h1.used == h.used[m.offset := m]
            && (!n.isnull ==> (n.offset == m.offset <==> size <= h.free[0].size))
            && (size <= h.free[0].size ==> !n.isnull && h2.used == h.used[m.offset := n])
  {
    var (h1, m) := Alloc(h, 0);
    assert FitFrom(h.free, 0, 0) == 0;
    assert h1.free == h.free;
    var k := FitFrom(h.free, size, 0);
    assert size <= h.free[0].size <==> k == 0;
    assert 0 < k < |h.free| ==> End(h.free[0]) < h.free[k].offset;
    if k == 0 {
      assert Alloc(h1, size).0.used == h.used[m.offset := Alloc(h1, size).1];
    }
  }

  /** Releasing an offset that is not in use frees no byte, but may leave an empty null block in the list. */
  lemma UnknownRelease(h: Heap, lost: set<Mem>, limit: nat, offset: nat)
    requires Sound(h, lost, limit) && offset !in h.used
    ensures var (h', ok) := Free(h, offset);
            && h'.used == h.used
            && (ok <==> h.free == [] || exists i :: 0 <= i < |h.free| && Before(h.free, offset, i))
            && (ok ==> exists k :: 0 <= k <= |h.free| && h'.free == Insert(h.free, k, NULL_MEM.(free := true)))
            && (!ok ==> h'.free == h.free)
  {
    assert h.used - {offset} == h.used;
    var x := NULL_MEM.(free := true);
    assert h.free == [] ==> Free(h, offset).0.free == Insert(h.free, 0, x);
    var k := PlaceFrom(h.free, offset, 0);
    if k < |h.free| {
      var all := Insert(h.free, k, x);
      assert all[k] == x && all[k + 1] == h.free[k] && (k > 0 ==> all[k - 1] == h.free[k - 1]);
      assert Before(h.free, offset, k);
      assert Merge(all, k) == all;
    }
  }

  /* ---- the sum of offsets fits in 64 bits ---- */

  lemma {:induction false} OffsetsSpread(mem: seq<Mem>, limit: nat, i: nat)
    requires Canonical(mem, limit) && i < |mem|
    ensures 2 * i <= mem[i].offset < limit
  {
    if i > 0 {
      OffsetsSpread(mem, limit, i - 1);
    }
  }

  lemma {:induction false} SumUpTo(mem: seq<Mem>, limit: nat, i: nat)
    requires Canonical(mem, limit) && i <= |mem| && limit > 0
    ensures SumOffsets(mem, i) <= i * (limit - 1)
  {
    if i > 0 {
      SumUpTo(mem, limit, i - 1);
      assert (i - 1) * (limit - 1) + (limit - 1) == i * (limit - 1);
    }
  }

  /** The release loop's sum stays below half the square of the memory size: no wrap up to 6074000999 bytes. */
  lemma SumFits(mem: seq<Mem>, limit: nat)
    requires Canonical(mem, limit) && limit > 0
    ensures 2 * SumOffsets(mem, |mem|) < limit * limit
    ensures limit <= 6074000999 ==> SumOffsets(mem, |mem|) < 0x1_0000_0000_0000_0000
  {
    var n := |mem|;
    SumUpTo(mem, limit, n);
    if n > 0 {
      OffsetsSpread(mem, limit, n - 1);
      HalfSquare(n, limit);
    } else {
      HalfSquare(0, limit);
    }
    SquareFits(limit);
  }

  lemma SquareFits(limit: nat)
    ensures limit <= 6074000999 ==> limit * limit <= 2 * 0x1_0000_0000_0000_0000
  {
    if limit <= 6074000999 {
      MulMonotone(limit, 6074000999, limit);
      MulMonotone(limit, 6074000999, 6074000999);
    }
  }

  lemma HalfSquare(n: nat, limit: nat)
    requires limit > 0 && 2 * n <= limit + 1
    ensures 2 * (n * (limit - 1)) < limit * limit
  {
    assert 2 * n * (limit - 1) <= (limit + 1) * (limit - 1);
  }
}
