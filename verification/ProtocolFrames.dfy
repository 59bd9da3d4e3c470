/** What a change at one worker leaves untouched, stated once per part of the invariant. */
module ProtocolFrames {
  import opened Arithmetic
  import opened Sums
  import opened Partition
  import opened Protocol
  import opened ProtocolInvariant

  /** Two histories that differ at most at worker w. */
  ghost predicate Agree(c: Config, a: History, a': History, w: nat) {
    && HistoryShape(c, a) && HistoryShape(c, a') && w < c.workers
    && forall u :: 0 <= u < c.workers && u != w ==>
         a'.stage[u] == a.stage[u] && a'.done[u] == a.done[u] && a'.fin[u] == a.fin[u]
  }

  lemma AddressRoundTrip(base: nat, size: nat, k: nat)
    requires size > 0
    ensures SlotIndex(base, size, SlotAddress(base, size, k)) == k
  {
    DivisionUnique(k * size, size, k, 0);
  }

  /** Slots lie one behind the other in the memory reserved for them: they share no byte. */
  lemma SlotsApart(base: nat, size: nat, j: nat, k: nat, n: nat)
    requires j < k < n
    ensures base <= SlotAddress(base, size, j) && SlotAddress(base, size, j) + size <= SlotAddress(base, size, k)
    ensures SlotAddress(base, size, k) + size <= base + n * size
  {
    ProductStep(j, size);
    MulMonotone(j + 1, k, size);
    SlotInside(base, size, k, n);
  }

  lemma SlotInside(base: nat, size: nat, k: nat, n: nat)
    requires k < n
    ensures base <= SlotAddress(base, size, k) && SlotAddress(base, size, k) + size <= base + n * size
  {
    ProductStep(k, size);
    MulMonotone(k + 1, n, size);
  }

  /** Moving the head of one queue to the end of another keeps all buffers distinct. */
  lemma MoveHead(x: seq<nat>, y: seq<nat>, z: seq<nat>)
    requires x != [] && Distinct(multiset(x) + multiset(y) + multiset(z))
    ensures Distinct(multiset(x[1..]) + multiset(y + [x[0]]) + multiset(z))
    ensures x[0] in x && x[0] !in x[1..] && x[0] !in y && x[0] !in z
    ensures forall k :: k in x[1..] ==> k in x
  {
    assert x == [x[0]] + x[1..];
    var all := multiset(x) + multiset(y) + multiset(z);
    assert x[0] in all && all[x[0]] == 1;
    assert multiset(x[1..]) + multiset(y + [x[0]]) + multiset(z) == all;
  }

  lemma NodeInRange(c: Config, w: nat)
    requires WellFormed(c) && w < c.workers
    ensures c.nodeIds[w] < BufferLength(c)
  {
  }

  /** Slots the workers pick for their responses lie in their own slices. */
  lemma ResponseIdInSlice(c: Config, w: nat, i: nat)
    requires WellFormed(c) && w < c.workers && i < c.requests
    ensures var n := BufferLength(c);
            SliceFrom(c.prepared, n, c.nodeIds[w]) <= ResponseId(c, w, i) < SliceTo(c.prepared, n, c.nodeIds[w])
  {
    SliceUsable(c.prepared, BufferLength(c), c.nodeIds[w]);
  }

  lemma ResponseIdsDiffer(c: Config, u: nat, i: nat, w: nat, j: nat)
    requires WellFormed(c) && u < c.workers && i < c.requests && w < c.workers && j < c.requests && u != w
    ensures ResponseId(c, u, i) != ResponseId(c, w, j)
  {
    ResponseIdInSlice(c, u, i);
    ResponseIdInSlice(c, w, j);
    var n := BufferLength(c);
    if c.nodeIds[u] < c.nodeIds[w] {
      SlicesDisjoint(c.prepared, n, c.nodeIds[u], c.nodeIds[w]);
    } else {
      assert c.nodeIds[w] < c.nodeIds[u];
      SlicesDisjoint(c.prepared, n, c.nodeIds[w], c.nodeIds[u]);
    }
  }

  ghost predicate NotAt(st: Stage, r: nat) {
    !((st.InBuf? || st.Busy? || st.RespWire?) && st.r == r)
  }

  ghost predicate NotIn(st: Stage, r: nat) {
    !((st.InBuf? || st.Busy?) && st.r == r)
  }

  /** Places in which a request is out of its worker's and the dispatcher's hands, or its response is. */
  predicate Remote(st: Stage) {
    st.ReqWire? || st.InBuf? || st.Busy? || st.RespWire? || st.Landed? || st.Taken?
  }

  /** Workers are blind to which of the remote places their request or finish message is in. */
  lemma WorkersFrame(c: Config, s: State, a: History, a': History, w: nat)
    requires WellFormed(c) && Shape(c, s) && Agree(c, a, a', w) && a'.done == a.done && WorkersOk(c, s, a)
    requires a'.stage[w] == a.stage[w] || (Remote(a.stage[w]) && Remote(a'.stage[w]))
    requires forall q :: 0 <= q < c.receivers ==> (a'.fin[w][q].FNone? <==> a.fin[w][q].FNone?)
    ensures WorkersOk(c, s, a')
  {
    assert WorkerFlags(c, w, s.workers[w], a.done[w], a.stage[w], s.reqSlots[w], s.transfered[w], s.mailboxes[w], s.dpc);
    assert FinishFlags(c, s.workers[w], a.fin[w]);
  }

  lemma CountedTotal(c: Config, a: History, a': History, w: nat, r: nat)
    requires WellFormed(c) && Agree(c, a, a', w) && r < c.receivers
    ensures Total(CountedSeq(c, a', r)) ==
            Total(CountedSeq(c, a, r)) - B2I(a.fin[w][r].FCounted?) + B2I(a'.fin[w][r].FCounted?)
  {
    TotalChange(CountedSeq(c, a, r), CountedSeq(c, a', r), w);
  }

  lemma OccupyTotal(c: Config, a: History, a': History, w: nat, r: nat)
    requires WellFormed(c) && Agree(c, a, a', w) && r < c.receivers
    ensures Total(OccupySeq(c, a', r)) ==
            Total(OccupySeq(c, a, r)) - Occupies(a.stage[w], a.fin[w][r], r) + Occupies(a'.stage[w], a'.fin[w][r], r)
  {
    hide Occupies;
    TotalChange(OccupySeq(c, a, r), OccupySeq(c, a', r), w);
  }

  lemma HitTotal(c: Config, a: History, a': History, w: nat, r: nat)
    requires WellFormed(c) && Agree(c, a, a', w) && r < c.receivers
    ensures Total(HitSeq(c, a', r)) == Total(HitSeq(c, a, r))
            - Hits(c, w, r, a.done[w] + Answered(a.stage[w])) + Hits(c, w, r, a'.done[w] + Answered(a'.stage[w]))
  {
    hide Hits;
    TotalChange(HitSeq(c, a, r), HitSeq(c, a', r), w);
  }

  lemma ReceiverTotals(c: Config, a: History, a': History, w: nat, r: nat)
    requires WellFormed(c) && Agree(c, a, a', w) && r < c.receivers
    ensures Total(CountedSeq(c, a', r)) ==
            Total(CountedSeq(c, a, r)) - B2I(a.fin[w][r].FCounted?) + B2I(a'.fin[w][r].FCounted?)
    ensures Total(OccupySeq(c, a', r)) ==
            Total(OccupySeq(c, a, r)) - Occupies(a.stage[w], a.fin[w][r], r) + Occupies(a'.stage[w], a'.fin[w][r], r)
    ensures Total(HitSeq(c, a', r)) == Total(HitSeq(c, a, r))
            - Hits(c, w, r, a.done[w] + Answered(a.stage[w])) + Hits(c, w, r, a'.done[w] + Answered(a'.stage[w]))
  {
    hide Occupies, Hits, HitSeq, OccupySeq, CountedSeq, Agree;
    CountedTotal(c, a, a', w, r);
    OccupyTotal(c, a, a', w, r);
    HitTotal(c, a, a', w, r);
  }

  lemma DispatcherTotals(c: Config, a: History, a': History, w: nat)
    requires WellFormed(c) && Agree(c, a, a', w)
    ensures Total(LandSeq(c, a')) == Total(LandSeq(c, a)) - Lands(a.stage[w]) + Lands(a'.stage[w])
    ensures Total(ForwardedSeq(c, a')) == Total(ForwardedSeq(c, a))
            - (a.done[w] + Forwarded(a.stage[w])) + (a'.done[w] + Forwarded(a'.stage[w]))
    ensures Total(CollectedSeq(c, a')) == Total(CollectedSeq(c, a))
            - (a.done[w] + Collected(a.stage[w])) + (a'.done[w] + Collected(a'.stage[w]))
  {
    TotalChange(LandSeq(c, a), LandSeq(c, a'), w);
    TotalChange(ForwardedSeq(c, a), ForwardedSeq(c, a'), w);
    TotalChange(CollectedSeq(c, a), CollectedSeq(c, a'), w);
  }

  /** A receiver does not notice a worker whose messages are elsewhere before and after. */
  lemma ReceiverFrame(c: Config, a: History, a': History, w: nat, r: nat, rc: Receiver)
    requires WellFormed(c) && Agree(c, a, a', w) && r < c.receivers && ReceiverShape(c, rc)
    requires ReceiverAll(c, a, r, rc)
    requires NotIn(a.stage[w], r) && NotAt(a'.stage[w], r)
    requires a'.fin[w][r] == a.fin[w][r] || (a.fin[w][r].FNone? && a'.fin[w][r].FWire?)
    requires Hits(c, w, r, a.done[w] + Answered(a.stage[w])) == Hits(c, w, r, a'.done[w] + Answered(a'.stage[w]))
    ensures ReceiverAll(c, a', r, rc)
  {
    hide ReceiverOk, ReceiverPlaces;
    ReceiverTotals(c, a, a', w, r);
    hide ReceiverCounts, CountedSeq, HitSeq, OccupySeq;
    ReceiverOkFrame(c, a, a', w, r, rc);
    ReceiverPlacesFrame(c, a, a', w, r, rc);
  }

  lemma ReceiverOkFrame(c: Config, a: History, a': History, w: nat, r: nat, rc: Receiver)
    requires WellFormed(c) && Agree(c, a, a', w) && r < c.receivers && ReceiverShape(c, rc) && ReceiverOk(c, a, r, rc)
    requires NotIn(a.stage[w], r)
    requires a'.fin[w][r] == a.fin[w][r] || (a.fin[w][r].FNone? && a'.fin[w][r].FWire?)
    ensures ReceiverOk(c, a', r, rc)
  {
    hide ReceiverQueuesOk;
    forall b | 0 <= b < BufferLength(c) ensures UnreadOk(c, a', r, rc, b) {
      assert UnreadOk(c, a, r, rc, b);
    }
  }

  lemma ReceiverPlacesFrame(c: Config, a: History, a': History, w: nat, r: nat, rc: Receiver)
    requires WellFormed(c) && Agree(c, a, a', w) && r < c.receivers && ReceiverShape(c, rc)
    requires ReceiverPlaces(c, a, r, rc) && NotAt(a'.stage[w], r)
    requires a'.fin[w][r] == a.fin[w][r] || (a.fin[w][r].FNone? && a'.fin[w][r].FWire?)
    ensures ReceiverPlaces(c, a', r, rc)
  {
    forall u | 0 <= u < c.workers ensures FinishPlace(c, u, a'.fin[u][r], rc) {
      assert FinishPlace(c, u, a.fin[u][r], rc);
    }
    forall u | 0 <= u < c.workers && a'.done[u] < c.requests
      ensures ReceiverPlace(c, u, a'.done[u], a'.stage[u], r, rc)
    {
      if u != w {
        assert ReceiverPlace(c, u, a.done[u], a.stage[u], r, rc);
      }
    }
  }

  lemma RequestWireFrame(c: Config, a: History, a': History, w: nat, wire: multiset<RequestPacket>)
    requires WellFormed(c) && Agree(c, a, a', w) && RequestWireOk(c, a, wire)
    requires !a.stage[w].ReqWire? && !a'.stage[w].ReqWire?
    requires forall r :: 0 <= r < c.receivers ==> (a.fin[w][r].FWire? <==> a'.fin[w][r].FWire?)
    ensures RequestWireOk(c, a', wire)
  {
    forall p | p in wire ensures RequestPacketOk(c, a', p) {
      assert RequestPacketOk(c, a, p);
    }
  }

  lemma ResponseWireFrame(c: Config, a: History, a': History, w: nat, wire: multiset<ResponsePacket>)
    requires WellFormed(c) && Agree(c, a, a', w) && ResponseWireOk(c, a, wire)
    requires !a.stage[w].RespWire? && !a'.stage[w].RespWire?
    ensures ResponseWireOk(c, a', wire)
  {
    forall p | p in wire ensures ResponsePacketOk(c, a', p) {
      assert ResponsePacketOk(c, a, p);
    }
  }

  lemma DispatcherFrame(c: Config, a: History, a': History, w: nat, dpc: DispatcherPc, dPosted: seq<nat>,
                        dCq: seq<nat>, slots: seq<Response>)
    requires WellFormed(c) && Agree(c, a, a', w) && DispatcherShape(c, dpc) && |slots| == c.workers
    requires DispatcherOk(c, a, dpc, dPosted, dCq, slots)
    requires !a.stage[w].Landed? && !a.stage[w].Taken? && !a'.stage[w].Landed? && !a'.stage[w].Taken?
    ensures DispatcherOk(c, a', dpc, dPosted, dCq, slots)
  {
    forall k | 0 <= k < c.workers ensures SlotOk(c, a', dpc, dCq, slots[k], k) {
      assert SlotOk(c, a, dpc, dCq, slots[k], k);
    }
    forall u | 0 <= u < c.workers && a'.done[u] < c.requests
      ensures DispatcherPlace(c, u, a'.done[u], a'.stage[u], dpc, dCq, slots)
    {
      if u != w {
        assert DispatcherPlace(c, u, a.done[u], a.stage[u], dpc, dCq, slots);
      }
    }
  }

  lemma DispatcherCountsFrame(c: Config, a: History, a': History, w: nat, dispatched: nat, received: nat,
                              dpc: DispatcherPc, dPosted: seq<nat>, dCq: seq<nat>)
    requires WellFormed(c) && Agree(c, a, a', w) && DispatcherShape(c, dpc)
    requires DispatcherCounts(c, a, dispatched, received, dpc, dPosted, dCq)
    requires a'.done[w] + Forwarded(a'.stage[w]) == a.done[w] + Forwarded(a.stage[w])
    requires a'.done[w] + Collected(a'.stage[w]) == a.done[w] + Collected(a.stage[w])
    requires Lands(a'.stage[w]) == Lands(a.stage[w])
    ensures DispatcherCounts(c, a', dispatched, received, dpc, dPosted, dCq)
  {
    DispatcherTotals(c, a, a', w);
  }

  /** The workers' part of the invariant only looks at the workers' part of the state. */
  lemma WorkersSame(c: Config, s: State, s': State, a: History)
    requires WellFormed(c) && Shape(c, s) && Shape(c, s') && HistoryShape(c, a) && WorkersOk(c, s, a)
    requires s'.workers == s.workers && s'.reqSlots == s.reqSlots && s'.transfered == s.transfered
    requires s'.mailboxes == s.mailboxes && s'.dpc == s.dpc
    ensures WorkersOk(c, s', a)
  {
    hide WorkerFlags, FinishFlags;
  }
}
