/**
 The buffers of the RPC handler. Receives are posted round the ring and the shared receive queue hands buffers out
 first in, first out; the handler finds the message of a completion by counting, with a 32-bit index.
 */
module RpcRing {
  import opened Arithmetic

  const INDEX_RANGE: nat := 0x1_0000_0000

  /** Number of the buffer that the k-th call of getNext returns. */
  function Nth(maxMsgs: nat, k: nat): (b: nat)
    requires maxMsgs > 0
    ensures b < maxMsgs
  {
    (k % INDEX_RANGE) % maxMsgs
  }

  /** The message of the n-th completion is where the handler looks for it. */
  predicate Matches(maxMsgs: nat, n: nat)
    requires maxMsgs > 0
  {
    Nth(maxMsgs, n + maxMsgs) == Nth(maxMsgs, n)
  }

  lemma BeforeWrap(maxMsgs: nat, n: nat)
    requires maxMsgs > 0 && n + maxMsgs < INDEX_RANGE
    ensures Matches(maxMsgs, n)
  {
    RemainderOfSum(n, 1, maxMsgs);
  }

  /** The first completion whose message is looked for after the wrap. */
  lemma AtWrap(maxMsgs: nat)
    requires 0 < maxMsgs < INDEX_RANGE
    ensures Matches(maxMsgs, INDEX_RANGE - maxMsgs) <==> INDEX_RANGE % maxMsgs == 0
  {
    hide Nth;
    AtWrapBefore(maxMsgs);
    AtWrapAfter(maxMsgs, INDEX_RANGE - maxMsgs);
  }

  lemma AtWrapAfter(maxMsgs: nat, n: nat)
    requires maxMsgs > 0 && n + maxMsgs == INDEX_RANGE
    ensures Nth(maxMsgs, n + maxMsgs) == 0
  {
    assert (n + maxMsgs) % INDEX_RANGE == 0;
  }

  lemma AtWrapBefore(maxMsgs: nat)
    requires 0 < maxMsgs < INDEX_RANGE
    ensures Nth(maxMsgs, INDEX_RANGE - maxMsgs) == INDEX_RANGE % maxMsgs
  {
    var n: nat := INDEX_RANGE - maxMsgs;
    assert n % INDEX_RANGE == n;
    assert n + 1 * maxMsgs == INDEX_RANGE;
    RemainderOfSum(n, 1, maxMsgs);
  }

  /** If the ring size divides the range of the index, wrapping does not show. */
  lemma WrapInvisible(maxMsgs: nat, k: nat)
    requires maxMsgs > 0 && INDEX_RANGE % maxMsgs == 0
    ensures Nth(maxMsgs, k) == k % maxMsgs
  {
    var q := INDEX_RANGE / maxMsgs;
    var laps := k / INDEX_RANGE;
    assert k == k % INDEX_RANGE + laps * INDEX_RANGE;
    assert INDEX_RANGE == q * maxMsgs;
    assert laps * (q * maxMsgs) == (laps * q) * maxMsgs;
    RemainderOfSum(k % INDEX_RANGE, laps * q, maxMsgs);
  }

  /** Every completion's message is found, for ever, exactly if the ring size divides 2^32. */
  lemma MatchesForeverIff(maxMsgs: nat)
    requires 0 < maxMsgs < INDEX_RANGE
    ensures (forall n: nat :: Matches(maxMsgs, n)) <==> INDEX_RANGE % maxMsgs == 0
  {
    AtWrap(maxMsgs);
    if INDEX_RANGE % maxMsgs == 0 {
      forall n: nat ensures Matches(maxMsgs, n) {
        WrapInvisible(maxMsgs, n);
        WrapInvisible(maxMsgs, n + maxMsgs);
        RemainderOfSum(n, 1, maxMsgs);
      }
    } else {
      assert !Matches(maxMsgs, INDEX_RANGE - maxMsgs);
    }
  }

  /** Buffers that are posted at the same time are different ones, so no message is overwritten. */
  lemma PostedDiffer(maxMsgs: nat, i: nat, j: nat)
    requires 0 < maxMsgs < INDEX_RANGE && i < j < i + maxMsgs
    requires j < INDEX_RANGE || INDEX_RANGE % maxMsgs == 0
    ensures Nth(maxMsgs, i) != Nth(maxMsgs, j)
  {
    if INDEX_RANGE % maxMsgs == 0 {
      WrapInvisible(maxMsgs, i);
      WrapInvisible(maxMsgs, j);
    }
    if i % maxMsgs == j % maxMsgs {
      assert (j / maxMsgs - i / maxMsgs) * maxMsgs == j - i;
      ProductBounds(j / maxMsgs - i / maxMsgs, maxMsgs);
    }
  }

  lemma NthSmall(maxMsgs: nat, k: nat)
    requires maxMsgs > 0 && k < INDEX_RANGE
    ensures Nth(maxMsgs, k) == k % maxMsgs
  {
  }

  class RPCMemory {
    const m_localBuffer: nat
    const m_msgSize: nat
    const m_maxNumberMsgs: nat
    var m_index: nat

    ghost predicate Valid()
      reads this
    {
      0 < m_maxNumberMsgs < INDEX_RANGE && m_index < INDEX_RANGE
    }

    constructor (buffer: nat, msgSize: nat, maxMsgs: nat)
      requires 0 < maxMsgs < INDEX_RANGE
      ensures Valid() && m_localBuffer == buffer && m_msgSize == msgSize && m_maxNumberMsgs == maxMsgs && m_index == 0
    {
      m_localBuffer, m_msgSize, m_maxNumberMsgs, m_index := buffer, msgSize, maxMsgs, 0;
    }

    /** Number of the next buffer; its address follows from it. */
    method GetNext() returns (ptr: nat, ghost buffer: nat)
      requires Valid()
      modifies this
      ensures Valid() && m_index == (old(m_index) + 1) % INDEX_RANGE
      ensures buffer == old(m_index) % m_maxNumberMsgs && ptr == Address(buffer) && Inside(ptr)
    {
      buffer := m_index % m_maxNumberMsgs;
      ptr := m_localBuffer + m_msgSize * (m_index % m_maxNumberMsgs);
      m_index := (m_index + 1) % INDEX_RANGE;
      AddressInside(buffer);
    }

    function Address(buffer: nat): nat { m_localBuffer + m_msgSize * buffer }

    /** A whole message at this address lies in the memory the ring was given. */
    predicate Inside(ptr: nat) {
      m_localBuffer <= ptr && ptr + m_msgSize <= m_localBuffer + m_msgSize * m_maxNumberMsgs
    }

    /** Messages at these addresses share no byte. */
    predicate Apart(p: nat, q: nat) {
      p + m_msgSize <= q || q + m_msgSize <= p
    }

    lemma AddressInside(buffer: nat)
      requires buffer < m_maxNumberMsgs
      ensures Inside(Address(buffer))
    {
      ProductStep(buffer, m_msgSize);
      MulMonotone(buffer + 1, m_maxNumberMsgs, m_msgSize);
    }

    lemma AddressesApart(x: nat, y: nat)
      requires x < y
      ensures Apart(Address(x), Address(y))
    {
      ProductStep(x, m_msgSize);
      MulMonotone(x + 1, y, m_msgSize);
    }

    /** Buffers handed out within one round of the ring have their own bytes, until the index wraps, and for ever if
        the ring size divides 2^32. */
    lemma RoundApart(i: nat, j: nat)
      requires 0 < m_maxNumberMsgs < INDEX_RANGE && i < j < i + m_maxNumberMsgs
      requires j < INDEX_RANGE || INDEX_RANGE % m_maxNumberMsgs == 0
      ensures Apart(Address(Nth(m_maxNumberMsgs, i)), Address(Nth(m_maxNumberMsgs, j)))
      ensures Inside(Address(Nth(m_maxNumberMsgs, i))) && Inside(Address(Nth(m_maxNumberMsgs, j)))
    {
      hide Address, Inside, Nth;
      PostedDiffer(m_maxNumberMsgs, i, j);
      var x, y := Nth(m_maxNumberMsgs, i), Nth(m_maxNumberMsgs, j);
      AddressInside(x);
      AddressInside(y);
      if x < y {
        AddressesApart(x, y);
      } else {
        AddressesApart(y, x);
      }
    }
  }

  /** The k-th receive posted is the buffer the k-th call of getNext returns. */
  ghost predicate InOrder(memory: RPCMemory, posted: seq<nat>)
    requires memory.m_maxNumberMsgs > 0
  {
    forall k :: 0 <= k < |posted| ==> posted[k] == memory.Address(Nth(memory.m_maxNumberMsgs, k))
  }

  lemma NoneYet(memory: RPCMemory)
    requires memory.m_maxNumberMsgs > 0
    ensures InOrder(memory, [])
  {
  }

  lemma OneMore(memory: RPCMemory, posted: seq<nat>, ptr: nat)
    requires memory.m_maxNumberMsgs > 0 && InOrder(memory, posted)
    requires ptr == memory.Address(Nth(memory.m_maxNumberMsgs, |posted|))
    ensures InOrder(memory, posted + [ptr])
  {
    hide Nth;
  }

  /** The handler with its shared receive queue: all receives ever posted, and how many a message has filled. */
  class RPCHandler {
    const memory: RPCMemory
    var posted: seq<nat>
    var filled: nat
    var handled: nat

    ghost predicate Valid()
      reads this, memory
    {
      && memory.Valid()
      && handled <= filled <= |posted|
      && |posted| == handled + memory.m_maxNumberMsgs
      && memory.m_index == |posted| % INDEX_RANGE
      && InOrder(memory, posted)
    }

    /** All buffers are posted, in order. */
    constructor (buffer: nat, msgSize: nat, maxMsgs: nat)
      requires 0 < maxMsgs < INDEX_RANGE
      ensures Valid() && fresh(memory) && handled == filled == 0 && memory.m_maxNumberMsgs == maxMsgs
    {
      memory := new RPCMemory(buffer, msgSize, maxMsgs);
      posted, filled, handled := [], 0, 0;
      new;
      InitMemory();
    }

    method InitMemory()
      requires memory.Valid() && memory.m_index == 0 && posted == [] && filled == handled == 0
      modifies this`posted, memory
      ensures Valid()
    {
      hide InOrder, Nth;
      assert InOrder(memory, posted) by {
        NoneYet(memory);
      }
      for i := 0 to memory.m_maxNumberMsgs
        invariant memory.Valid() && |posted| == i && memory.m_index == i && InOrder(memory, posted)
      {
        PostNext();
      }
      NthSmall(memory.m_maxNumberMsgs, |posted|);
    }

    method PostNext()
      requires memory.Valid() && memory.m_index == |posted| < memory.m_maxNumberMsgs && InOrder(memory, posted)
      modifies this`posted, memory
      ensures memory.Valid() && memory.m_index == |posted| == |old(posted)| + 1 && InOrder(memory, posted)
    {
      hide InOrder, Nth;
      NthSmall(memory.m_maxNumberMsgs, |posted|);
      var ptr, buffer := memory.GetNext();
      OneMore(memory, posted, ptr);
      posted := posted + [ptr];
    }

    /** Messages under way, waiting and being read never share a byte, and all lie in the ring's memory. */
    lemma WaitingApart(i: nat, j: nat)
      requires Valid() && handled <= i < j < |posted|
      requires |posted| <= INDEX_RANGE || INDEX_RANGE % memory.m_maxNumberMsgs == 0
      ensures memory.Apart(posted[i], posted[j]) && memory.Inside(posted[i]) && memory.Inside(posted[j])
    {
      hide Nth;
      memory.RoundApart(i, j);
    }

    /** A message arrives and fills the oldest receive that is still empty. */
    method Arrive() returns (ready: bool)
      requires Valid()
      modifies this`filled
      ensures Valid() && ready == (old(filled) < |posted|) && filled == old(filled) + if ready then 1 else 0
    {
      ready := filled < |posted|;
      if ready {
        filled := filled + 1;
      }
    }

    /** One turn of the run loop that finds a completion. `message` is what the handler is given to read. */
    method HandleNext() returns (message: nat)
      requires Valid() && handled < filled
      modifies this`posted, this`handled, memory
      ensures Valid() && handled == old(handled) + 1 && posted == old(posted) + [message]
      ensures Matches(memory.m_maxNumberMsgs, old(handled)) ==> message == old(posted)[old(handled)]
      ensures memory.m_msgSize > 0 && message == old(posted)[old(handled)] ==> Matches(memory.m_maxNumberMsgs, old(handled))
      ensures |old(posted)| < INDEX_RANGE ==> message == old(posted)[old(handled)]
    {
      var ptr, buffer := memory.GetNext();
      message := ptr;
      assert buffer == Nth(memory.m_maxNumberMsgs, |posted|);
      if memory.m_msgSize > 0 {
        AddressInjective(memory.m_msgSize, buffer, Nth(memory.m_maxNumberMsgs, handled));
      }
      if |posted| < INDEX_RANGE {
        BeforeWrap(memory.m_maxNumberMsgs, handled);
      }
      IndexSteps(|posted|);
      OneMore(memory, posted, message);
      posted := posted + [message];
      handled := handled + 1;
    }
  }

  lemma AddressInjective(size: nat, x: nat, y: nat)
    requires size > 0
    ensures size * x == size * y <==> x == y
  {
    ProductBounds(x - y, size);
    assert size * x - size * y == (x - y) * size;
  }

  lemma IndexSteps(n: nat)
    ensures (n % INDEX_RANGE + 1) % INDEX_RANGE == (n + 1) % INDEX_RANGE
  {
  }
}
