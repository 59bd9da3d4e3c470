/** The registered memory of a node: the list and map the allocator changes in place, and the calls around it. */
module Allocator {
  import opened FreeList

  datatype Result<T> = Ok(value: T) | Thrown

  datatype MessageErrors = NO_ERROR | MEMORY_NOT_AVAILABLE | MEMORY_RELEASE_FAILED

  /** Bytes the card writes in front of a message received on an unreliable queue pair. */
  const RDMA_UD_OFFSET: nat := 40

  class BaseRDMA {
    const m_memSize: nat
    const m_buffer: nat
    var m_rdmaMem: seq<Mem>
    var m_usedRdmaMem: map<nat, Mem>

    function Contents(): Heap
      reads this
    {
      Heap(m_rdmaMem, m_usedRdmaMem)
    }

    constructor (memSize: nat, buffer: nat)
      ensures m_memSize == memSize && m_buffer == buffer && Contents() == Init(memSize)
    {
      m_memSize := memSize;
      m_buffer := buffer;
      m_rdmaMem := [Block(memSize, true, 0)];
      m_usedRdmaMem := map[];
    }

    method InternalAlloc(size: nat) returns (res: Mem)
      modifies this
      ensures (Contents(), res) == Alloc(old(Contents()), size)
    {
      var iter := 0;
      while iter < |m_rdmaMem|
        invariant 0 <= iter <= |m_rdmaMem|
        invariant Contents() == old(Contents())
        invariant FitFrom(m_rdmaMem, size, 0) == FitFrom(m_rdmaMem, size, iter)
      {
        var memRes := m_rdmaMem[iter];
        if memRes.free && memRes.size >= size {
          var memResUsed := Block(size, false, memRes.offset);
          m_usedRdmaMem := m_usedRdmaMem[memRes.offset := memResUsed];
          if memRes.size > size {
            var memResFree := Block(memRes.size - size, true, memRes.offset + size);
            m_rdmaMem := m_rdmaMem[..iter] + [memResFree] + m_rdmaMem[iter..];
            iter := iter + 1;
          }
          m_rdmaMem := m_rdmaMem[..iter] + m_rdmaMem[iter + 1..];
          assert m_rdmaMem == TakeFrom(old(m_rdmaMem), FitFrom(old(m_rdmaMem), size, 0), size);
          return memResUsed;
        }
        iter := iter + 1;
      }
      return NULL_MEM;
    }

    /** Result false: the exception is thrown, after the used entry has been erased. */
    method InternalFree(offset: nat) returns (ok: bool)
      modifies this
      ensures (Contents(), ok) == Free(old(Contents()), offset)
    {
      var lastOffset := 0;
      var memResFree := if offset in m_usedRdmaMem then m_usedRdmaMem[offset] else NULL_MEM;
      m_usedRdmaMem := m_usedRdmaMem - {offset};

      var iter := 0;
      if iter != |m_rdmaMem| {
        while iter != |m_rdmaMem|
          invariant 0 <= iter <= |m_rdmaMem|
          invariant m_rdmaMem == old(m_rdmaMem) && m_usedRdmaMem == old(m_usedRdmaMem) - {offset}
          invariant lastOffset == SumOffsets(m_rdmaMem, iter)
          invariant PlaceFrom(m_rdmaMem, offset, 0) == PlaceFrom(m_rdmaMem, offset, iter)
        {
          var memRes := m_rdmaMem[iter];
          if lastOffset <= offset < memRes.offset {
            memResFree := memResFree.(free := true);
            m_rdmaMem := m_rdmaMem[..iter] + [memResFree] + m_rdmaMem[iter..];
            MergeFreeMem(iter);
            return true;
          }
          lastOffset := lastOffset + memRes.offset;
          iter := iter + 1;
        }
      } else {
        memResFree := memResFree.(free := true);
        m_rdmaMem := m_rdmaMem[..iter] + [memResFree] + m_rdmaMem[iter..];
        assert m_rdmaMem == [memResFree];
        return true;
      }
      return false;
    }

    /** Joins the entry at the iterator with the one before and the one after it. */
    method MergeFreeMem(at: nat)
      requires at < |m_rdmaMem|
      modifies this`m_rdmaMem
      ensures m_rdmaMem == Merge(old(m_rdmaMem), at)
    {
      var iter := at;
      var freeSpace := m_rdmaMem[iter].size;
      var offset := m_rdmaMem[iter].offset;
      var size := m_rdmaMem[iter].size;

      if iter != 0 {
        iter := iter - 1;
        if m_rdmaMem[iter].offset + m_rdmaMem[iter].size == offset {
          JoinByEdits(m_rdmaMem, iter);
          freeSpace := freeSpace + m_rdmaMem[iter].size;
          m_rdmaMem := m_rdmaMem[iter := m_rdmaMem[iter].(size := freeSpace)];
          iter := iter + 1;
          m_rdmaMem := m_rdmaMem[..iter] + m_rdmaMem[iter + 1..];
          iter := iter - 1;
        } else {
          iter := iter + 1;
        }
      }
      assert (m_rdmaMem, iter) == MergePrevious(old(m_rdmaMem), at);
      iter := iter + 1;
      if iter != |m_rdmaMem| {
        if offset + size == m_rdmaMem[iter].offset {
          JoinByEdits(m_rdmaMem, iter - 1);
          freeSpace := freeSpace + m_rdmaMem[iter].size;
          m_rdmaMem := m_rdmaMem[..iter] + m_rdmaMem[iter + 1..];
          iter := iter - 1;
          m_rdmaMem := m_rdmaMem[iter := m_rdmaMem[iter].(size := freeSpace)];
        }
      }
    }

    function ConvertOffsetToPointer(offset: nat): nat { m_buffer + offset }

    function ConvertPointerToOffset(ptr: nat): int { ptr - m_buffer }

    /* ---- reliable connections ---- */

    method ReliableLocalAlloc(size: nat) returns (ptr: Result<nat>)
      modifies this
      ensures (Contents(), ptr) == LocalAlloc(old(Contents()), m_buffer, 0, size)
    {
      var memRes := InternalAlloc(size);
      if !memRes.isnull {
        return Ok(ConvertOffsetToPointer(memRes.offset));
      }
      return Thrown;
    }

    method ReliableLocalFree(ptr: nat) returns (ok: bool)
      requires m_buffer <= ptr
      modifies this
      ensures (Contents(), ok) == LocalFree(old(Contents()), m_buffer, 0, ptr)
    {
      ok := InternalFree(ConvertPointerToOffset(ptr));
    }

    /* ---- unreliable connections: every block starts with a header ---- */

    method UnreliableLocalAlloc(size: nat) returns (ptr: Result<nat>)
      modifies this
      ensures (Contents(), ptr) == LocalAlloc(old(Contents()), m_buffer, RDMA_UD_OFFSET, size)
    {
      var memRes := InternalAlloc(size + RDMA_UD_OFFSET);
      if !memRes.isnull {
        return Ok(ConvertOffsetToPointer(memRes.offset) + RDMA_UD_OFFSET);
      }
      return Thrown;
    }

    method UnreliableLocalFree(ptr: nat) returns (ok: bool)
      requires m_buffer + RDMA_UD_OFFSET <= ptr
      modifies this
      ensures (Contents(), ok) == LocalFree(old(Contents()), m_buffer, RDMA_UD_OFFSET, ptr)
    {
      var offset := ConvertPointerToOffset(ptr) - RDMA_UD_OFFSET;
      ok := InternalFree(offset);
    }

    /* ---- requests of other nodes ---- */

    method RequestMemoryResource(size: nat) returns (ret: MessageErrors, offset: nat)
      modifies this
      ensures var (h, m) := Alloc(old(Contents()), size);
              Contents() == h && offset == m.offset && ret == if m.isnull then MEMORY_NOT_AVAILABLE else NO_ERROR
    {
      var memRes := InternalAlloc(size);
      offset := memRes.offset;
      if !memRes.isnull {
        ret := NO_ERROR;
        return;
      }
      ret := MEMORY_NOT_AVAILABLE;
    }

    method ReleaseMemoryResource(offset: nat) returns (ret: MessageErrors)
      modifies this
      ensures var (h, ok) := Free(old(Contents()), offset);
              Contents() == h && ret == if ok then NO_ERROR else MEMORY_RELEASE_FAILED
    {
      var ok := InternalFree(offset);
      if !ok {
        ret := MEMORY_RELEASE_FAILED;
        return;
      }
      ret := NO_ERROR;
    }
  }

  /** Either order of growing one entry and erasing the next joins them. */
  lemma JoinByEdits(mem: seq<Mem>, i: nat)
    requires i + 1 < |mem|
    ensures var m := mem[i].(size := mem[i].size + mem[i + 1].size);
            && mem[i := m][..i + 1] + mem[i := m][i + 2..] == Join(mem, i)
            && (mem[..i + 1] + mem[i + 2..])[i := m] == Join(mem, i)
  {
  }

  /** Allocating `size` bytes behind a header; its address is that of the first byte after the header. */
  function LocalAlloc(h: Heap, buffer: nat, header: nat, size: nat): (Heap, Result<nat>) {
    var (h', m) := Alloc(h, size + header);
    (h', if m.isnull then Thrown else Ok(buffer + m.offset + header))
  }

  function LocalFree(h: Heap, buffer: nat, header: nat, ptr: nat): (Heap, bool)
    requires buffer + header <= ptr
  {
    Free(h, ptr - buffer - header)
  }

  ghost predicate NoRoom(h: Heap, size: nat) { forall a: nat :: !FreeRun(h.free, a, size) }

  /** These bytes were free before and are used after. */
  ghost predicate HandedOver(h: Heap, h1: Heap, offset: nat, size: nat) {
    forall b: nat :: Covers(Block(size, false, offset), b) ==> InFree(h.free, b) && InUsed(h1.used, b)
  }

  /** Through either wrapper: the bytes behind the pointer are the caller's, and freeing the pointer undoes the call. */
  lemma LocalAllocThenFree(h: Heap, lost: set<Mem>, limit: nat, buffer: nat, header: nat, size: nat)
    requires Sound(h, lost, limit) && size > 0
    ensures var (h1, ptr) := LocalAlloc(h, buffer, header, size);
            && Sound(h1, lost, limit)
            && match ptr
               case Thrown => h1 == h && NoRoom(h, size + header)
               case Ok(p) =>
                 && buffer + header <= p && p + size <= buffer + limit
                 && HandedOver(h, h1, p - buffer - header, size + header)
                 && (LocalFree(h1, buffer, header, p).1 ==> LocalFree(h1, buffer, header, p).0 == h)
  {
    hide Alloc, Free, Shared, Canonical, InFree, InUsed;
    AllocKeeps(h, lost, limit, size + header);
    AllocFirstFit(h, lost, limit, size + header);
    var (h1, m) := Alloc(h, size + header);
    if !m.isnull {
      AllocThenFree(h, lost, limit, size + header);
      assert h1.used[m.offset] == m;
      OwnBytes(h, h1, m);
    }
  }

  lemma OwnBytes(h: Heap, h1: Heap, m: Mem)
    requires FreeRun(h.free, m.offset, m.size) && m.offset in h1.used && h1.used[m.offset] == m
    ensures forall b: nat :: Covers(m, b) ==> InFree(h.free, b) && InUsed(h1.used, b)
  {
    hide InFree;
    forall b: nat | Covers(m, b) ensures InFree(h.free, b) && InUsed(h1.used, b) {
      assert Covers(h1.used[m.offset], b);
    }
  }

  /** The overload that takes an offset does not skip the header: given the pointer's own offset it misses the block. */
  lemma PointerOffsetMissesBlock(h: Heap, lost: set<Mem>, limit: nat, size: nat)
    requires Sound(h, lost, limit) && size > 0
    ensures var (h1, ptr) := LocalAlloc(h, 0, RDMA_UD_OFFSET, size);
            ptr.Ok? ==> ptr.value !in h1.used && Free(h1, ptr.value).0.used == h1.used
  {
    hide Shared, Canonical, InFree, InUsed, FitFrom, TakeFrom;
    AllocKeeps(h, lost, limit, size + RDMA_UD_OFFSET);
    var (h1, ptr) := LocalAlloc(h, 0, RDMA_UD_OFFSET, size);
    if ptr.Ok? {
      var m := Alloc(h, size + RDMA_UD_OFFSET).1;
      assert m.offset in h1.used && h1.used[m.offset] == m;
      UnknownRelease(h1, lost, limit, ptr.value);
    }
  }
}
