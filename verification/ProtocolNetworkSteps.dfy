/** Arrivals keep the invariant: there is room for every message, and no unread one is overwritten. */
module ProtocolNetworkSteps {
  import opened Sums
  import opened Counting
  import opened Partition
  import opened Protocol
  import opened ProtocolInvariant
  import opened ProtocolFrames

  /* ---- requests and finish messages ---- */

  /** The history after the message of worker w on its way to r has arrived in buffer b. */
  ghost predicate Arriving(c: Config, a: History, a': History, w: nat, r: nat, p: RequestPacket, b: nat)
    requires WellFormed(c)
  {
    && Agree(c, a, a', w) && r < c.receivers && p.to == r && p.body.origin == w && b < BufferLength(c)
    && RequestPacketOk(c, a, p)
    && (if p.body.kind == ExpMsg then
          a.stage[w].ReqWire? && p == ForwardedPacket(c, w, a.done[w]) && r == Target(c, w, a.done[w])
          && a' == a.(stage := a.stage[w := InBuf(r, b)])
        else
          a.fin[w][r].FWire? && p == FinishPacket(c, w, r)
          && a' == a.(fin := a.fin[w := a.fin[w][r := FBuf(b)]]))
  }

  lemma RequestRemoved(c: Config, a: History, a': History, w: nat, r: nat, p: RequestPacket, b: nat,
                       wire: multiset<RequestPacket>)
    requires WellFormed(c) && Arriving(c, a, a', w, r, p, b) && RequestWireOk(c, a, wire) && p in wire
    ensures RequestWireOk(c, a', wire - multiset{p})
  {
    var wire' := wire - multiset{p};
    assert wire[p] == 1;
    assert p !in wire';
    forall q | q in wire' ensures RequestPacketOk(c, a', q) {
      assert q in wire && q != p;
      assert RequestPacketOk(c, a, q);
    }
    forall u | 0 <= u < c.workers && a'.stage[u].ReqWire? ensures wire'[ForwardedPacket(c, u, a'.done[u])] == 1 {
      assert ForwardedPacket(c, u, a.done[u]) != p;
    }
    forall u, q | 0 <= u < c.workers && 0 <= q < c.receivers && a'.fin[u][q].FWire?
      ensures wire'[FinishPacket(c, u, q)] == 1
    {
      assert FinishPacket(c, u, q) != p;
    }
  }

  /** A message under way means its receiver still expects a finish message. */
  lemma StillExpecting(c: Config, a: History, w: nat, r: nat, rc: Receiver)
    requires WellFormed(c) && HistoryShape(c, a) && r < c.receivers && w < c.workers
    requires ReceiverCounts(c, a, r, rc) && !a.fin[w][r].FCounted?
    ensures !rc.pc.Returned?
  {
    assert CountedSeq(c, a, r)[w] == 0;
    TotalHole(CountedSeq(c, a, r), w);
  }

  /** A message that arrives at an SRQ receiver needs a posted buffer. */
  predicate Fits(c: Config, s: State, step: Step) {
    step.DeliverRequest? && c.receiverSrq && step.request.to < |s.receivers| ==>
      s.receivers[step.request.to].posted != []
  }

  /** With enough credit an SRQ receiver has a buffer posted for a message under way. */
  lemma CreditLeft(c: Config, a: History, w: nat, r: nat, rc: Receiver)
    requires WellFormed(c) && EnoughCredit(c) && c.receiverSrq
    requires HistoryShape(c, a) && r < c.receivers && w < c.workers
    requires ReceiverCounts(c, a, r, rc) && ReceiverQueuesOk(c, rc) && Occupies(a.stage[w], a.fin[w][r], r) == 0
    ensures rc.posted != []
  {
    assert OccupySeq(c, a, r)[w] == 0;
    TotalHole(OccupySeq(c, a, r), w);
    DistinctFill(c.nodeIds, BufferLength(c));
    if c.requests == 0 {
      TotalBounds(HitSeq(c, a, r), 0, 0);
    }
  }

  lemma MessageFits(c: Config, a: History, p: RequestPacket, rc: Receiver)
    requires WellFormed(c) && EnoughCredit(c) && HistoryShape(c, a) && c.receiverSrq && RequestPacketOk(c, a, p)
    requires ReceiverShape(c, rc) && ReceiverAll(c, a, p.to, rc)
    ensures rc.posted != []
  {
    hide ReceiverPlaces, ReceiverCounts, UnreadOk, ReceiverPcOk, ReceiverQueuesOk;
    CreditLeft(c, a, p.body.origin, p.to, rc);
  }

  /** The slot of a BUF receiver a message is written to is empty and not in the receiver's hands. */
  lemma SlotFree(c: Config, a: History, a': History, w: nat, r: nat, p: RequestPacket, rc: Receiver)
    requires WellFormed(c) && r < c.receivers && ReceiverShape(c, rc) && !c.receiverSrq && w < c.workers
    requires Arriving(c, a, a', w, r, p, c.nodeIds[w]) && ReceiverOk(c, a, r, rc) && !rc.pc.Returned?
    ensures rc.mem[c.nodeIds[w]].kind == EMPTY && !Holds(rc.pc, c.nodeIds[w])
  {
    assert UnreadOk(c, a, r, rc, c.nodeIds[w]);
  }

  function Received(c: Config, rc: Receiver, p: RequestPacket, b: nat): Receiver
    requires b < |rc.mem| && (c.receiverSrq ==> rc.posted != [])
  {
    if c.receiverSrq
    then rc.(posted := rc.posted[1..], cq := rc.cq + [b], mem := rc.mem[b := p.body])
    else rc.(mem := rc.mem[b := p.body])
  }

  /** Buffer b of receiver r is the one the arriving message gets. */
  ghost predicate FreeBuffer(c: Config, rc: Receiver, w: nat, b: nat)
    requires WellFormed(c) && w < c.workers && ReceiverShape(c, rc)
  {
    && b < BufferLength(c) && !rc.pc.Returned?
    && (c.receiverSrq ==> rc.posted != [] && b == rc.posted[0])
    && (!c.receiverSrq ==> b == c.nodeIds[w] && rc.mem[b].kind == EMPTY && !Holds(rc.pc, b))
  }

  lemma ArrivalCounts(c: Config, a: History, a': History, w: nat, r: nat, p: RequestPacket, b: nat, rc: Receiver)
    requires WellFormed(c) && ReceiverShape(c, rc) && Arriving(c, a, a', w, r, p, b) && FreeBuffer(c, rc, w, b)
    requires ReceiverCounts(c, a, r, rc)
    ensures ReceiverCounts(c, a', r, Received(c, rc, p, b))
  {
    hide Total, Hits, CountedSeq, HitSeq, OccupySeq;
    ReceiverTotals(c, a, a', w, r);
  }

  lemma ArrivalQueues(c: Config, rc: Receiver, p: RequestPacket, w: nat, b: nat)
    requires WellFormed(c) && ReceiverShape(c, rc) && w < c.workers && FreeBuffer(c, rc, w, b)
    requires ReceiverQueuesOk(c, rc)
    ensures ReceiverShape(c, Received(c, rc, p, b)) && ReceiverQueuesOk(c, Received(c, rc, p, b))
    ensures c.receiverSrq ==> b !in rc.cq && !Holds(rc.pc, b)
  {
    hide Distinct;
    if c.receiverSrq {
      MoveHead(rc.posted, rc.cq, HeldByReceiver(rc.pc));
      assert Holds(rc.pc, b) ==> b in HeldByReceiver(rc.pc);
    }
  }

  lemma ArrivalPlaces(c: Config, a: History, a': History, w: nat, r: nat, p: RequestPacket, b: nat, rc: Receiver)
    requires WellFormed(c) && ReceiverShape(c, rc) && Arriving(c, a, a', w, r, p, b) && FreeBuffer(c, rc, w, b)
    requires ReceiverPlaces(c, a, r, rc) && b !in rc.cq && !Holds(rc.pc, b)
    requires ReceiverShape(c, Received(c, rc, p, b))
    ensures ReceiverPlaces(c, a', r, Received(c, rc, p, b))
  {
    var rc' := Received(c, rc, p, b);
    forall u | 0 <= u < c.workers ensures FinishPlace(c, u, a'.fin[u][r], rc') {
      assert FinishPlace(c, u, a.fin[u][r], rc);
    }
    forall u | 0 <= u < c.workers && a'.done[u] < c.requests
      ensures ReceiverPlace(c, u, a'.done[u], a'.stage[u], r, rc')
    {
      assert ReceiverPlace(c, u, a.done[u], a.stage[u], r, rc);
    }
  }

  lemma ArrivalOk(c: Config, a: History, a': History, w: nat, r: nat, p: RequestPacket, b: nat, rc: Receiver)
    requires WellFormed(c) && ReceiverShape(c, rc) && Arriving(c, a, a', w, r, p, b) && FreeBuffer(c, rc, w, b)
    requires ReceiverOk(c, a, r, rc) && b !in rc.cq && !Holds(rc.pc, b)
    requires ReceiverShape(c, Received(c, rc, p, b)) && ReceiverQueuesOk(c, Received(c, rc, p, b))
    ensures ReceiverOk(c, a', r, Received(c, rc, p, b))
  {
    hide ReceiverQueuesOk;
    var rc' := Received(c, rc, p, b);
    forall d | 0 <= d < BufferLength(c) ensures UnreadOk(c, a', r, rc', d) {
      assert UnreadOk(c, a, r, rc, d);
    }
  }

  /** Everything but the receiver and the request wire is blind to the arrival. */
  lemma ArrivalElsewhere(c: Config, s: State, a: History, a': History, w: nat, r: nat, p: RequestPacket, b: nat)
    requires WellFormed(c) && Inv(c, s, a) && Arriving(c, a, a', w, r, p, b)
    ensures WorkersOk(c, s, a') && ResponseWireOk(c, a', s.respWire)
    ensures DispatcherOk(c, a', s.dpc, s.dPosted, s.dCq, s.respSlots)
    ensures DispatcherCounts(c, a', s.dispatched, s.received, s.dpc, s.dPosted, s.dCq)
    ensures forall q :: 0 <= q < c.receivers && q != r ==> ReceiverAll(c, a', q, s.receivers[q])
  {
    hide ReceiverAll, RequestWireOk, ResponseWireOk, DispatcherOk, PhaseOk, DispatcherCounts, WorkersOk, RequestPacketOk;
    assert p.body.kind != ExpMsg ==> a.stage[w].Home?;
    WorkersFrame(c, s, a, a', w);
    ResponseWireFrame(c, a, a', w, s.respWire);
    DispatcherFrame(c, a, a', w, s.dpc, s.dPosted, s.dCq, s.respSlots);
    DispatcherCountsFrame(c, a, a', w, s.dispatched, s.received, s.dpc, s.dPosted, s.dCq);
    forall q | 0 <= q < c.receivers && q != r ensures ReceiverAll(c, a', q, s.receivers[q]) {
      assert ReceiverAll(c, a, q, s.receivers[q]);
      ReceiverFrame(c, a, a', w, q, s.receivers[q]);
    }
  }

  lemma RequestArrives(c: Config, s: State, a: History, p: RequestPacket, s': State) returns (a': History)
    requires WellFormed(c) && Shape(c, s) && p in s.reqWire && Fits(c, s, DeliverRequest(p))
    requires s' == Apply(c, s, DeliverRequest(p)) && Inv(c, s, a)
    ensures Inv(c, s', a') && a' == AfterRequest(c, s, a, p)
  {
    hide ReceiverAll, ResponseWireOk, DispatcherOk, DispatcherCounts, WorkersOk, RequestPacketOk;
    assert RequestPacketOk(c, a, p);
    hide RequestWireOk;
    var r, w, b: nat;
    a', r, w, b := Admit(c, s, a, p);
    ArrivalApplied(c, s, a, a', w, r, p, b);
    RequestRemoved(c, a, a', w, r, p, b, s.reqWire);
    ArrivalElsewhere(c, s, a, a', w, r, p, b);
    WorkersSame(c, s, s', a');
  }

  lemma Admit(c: Config, s: State, a: History, p: RequestPacket) returns (a': History, r: nat, w: nat, b: nat)
    requires WellFormed(c) && Shape(c, s) && Fits(c, s, DeliverRequest(p)) && Inv(c, s, a) && RequestPacketOk(c, a, p)
    ensures Arriving(c, a, a', w, r, p, b) && ReceiverShape(c, s.receivers[r]) && b == BufferFor(c, s.receivers[r], w)
    ensures FreeBuffer(c, s.receivers[r], w, b)
    ensures ReceiverShape(c, Received(c, s.receivers[r], p, b))
    ensures ReceiverAll(c, a', r, Received(c, s.receivers[r], p, b))
  {
    hide RequestWireOk, ResponseWireOk, DispatcherOk, DispatcherCounts, WorkersOk, PhaseOk;
    r, w := p.to, p.body.origin;
    var rc := s.receivers[r];
    assert ReceiverAll(c, a, r, rc);
    hide ReceiverOk, ReceiverPlaces, ReceiverCounts, ReceiverQueuesOk;
    b := BufferFor(c, rc, w);
    a' := if p.body.kind == ExpMsg then a.(stage := a.stage[w := InBuf(r, b)])
          else a.(fin := a.fin[w := a.fin[w][r := FBuf(b)]]);
    BufferGiven(c, a, a', w, r, p, rc);
    hide Inv, RequestPacketOk;
    ReceiverAdmits(c, a, a', w, r, p, b, rc);
  }

  lemma ArrivalApplied(c: Config, s: State, a: History, a': History, w: nat, r: nat, p: RequestPacket, b: nat)
    requires WellFormed(c) && Shape(c, s) && p in s.reqWire && Arriving(c, a, a', w, r, p, b)
    requires FreeBuffer(c, s.receivers[r], w, b)
    ensures Apply(c, s, DeliverRequest(p)) == s.(reqWire := s.reqWire - multiset{p},
              receivers := s.receivers[r := Received(c, s.receivers[r], p, b)])
  {
    AddressRoundTrip(c.reqBases[r], MESSAGE_SIZE, c.nodeIds[w]);
  }

  lemma BufferGiven(c: Config, a: History, a': History, w: nat, r: nat, p: RequestPacket, rc: Receiver)
    requires WellFormed(c) && HistoryShape(c, a) && r < c.receivers && ReceiverShape(c, rc)
    requires c.receiverSrq ==> rc.posted != []
    requires ReceiverAll(c, a, r, rc) && RequestPacketOk(c, a, p) && p.to == r && p.body.origin == w
    requires a' == if p.body.kind == ExpMsg then a.(stage := a.stage[w := InBuf(r, BufferFor(c, rc, w))])
                   else a.(fin := a.fin[w := a.fin[w][r := FBuf(BufferFor(c, rc, w))]])
    ensures Arriving(c, a, a', w, r, p, BufferFor(c, rc, w)) && FreeBuffer(c, rc, w, BufferFor(c, rc, w))
  {
    hide ReceiverPlaces, ReceiverCounts, UnreadOk, ReceiverPcOk;
    var b := BufferFor(c, rc, w);
    assert Occupies(a.stage[w], a.fin[w][r], r) == 0 && !a.fin[w][r].FCounted?;
    StillExpecting(c, a, w, r, rc);
    if c.receiverSrq {
      assert rc.posted[0] in rc.posted;
    } else {
      NodeInRange(c, w);
      assert Arriving(c, a, a', w, r, p, b);
      SlotFree(c, a, a', w, r, p, rc);
    }
  }

  lemma ReceiverAdmits(c: Config, a: History, a': History, w: nat, r: nat, p: RequestPacket, b: nat, rc: Receiver)
    requires WellFormed(c) && ReceiverShape(c, rc) && Arriving(c, a, a', w, r, p, b) && FreeBuffer(c, rc, w, b)
    requires ReceiverAll(c, a, r, rc)
    ensures ReceiverShape(c, Received(c, rc, p, b)) && ReceiverAll(c, a', r, Received(c, rc, p, b))
  {
    assert w < c.workers;
    hide ReceiverPlaces, ReceiverCounts, Arriving;
    assert ReceiverQueuesOk(c, rc);
    hide ReceiverOk;
    ArrivalQueues(c, rc, p, w, b);
    assert !c.receiverSrq ==> rc.cq == [];
    ArrivalOk(c, a, a', w, r, p, b, rc);
    ArrivalPlaces(c, a, a', w, r, p, b, rc);
    ArrivalCounts(c, a, a', w, r, p, b, rc);
  }

  /* ---- responses ---- */

  ghost predicate Landing(c: Config, s: State, a: History, a': History, w: nat, p: ResponsePacket, k: nat)
    requires WellFormed(c)
  {
    && Shape(c, s) && Agree(c, a, a', w) && k < c.workers && k == SlotFor(c, s, w)
    && ResponsePacketOk(c, a, p) && p.origin == w && p.from < c.receivers
    && a' == a.(stage := a.stage[w := Landed(k)])
    && (c.dispatcherSrq ==> s.dPosted != [])
    && Fetched(s, p) == Reply(c, w, a.done[w])
  }

  function LandedState(c: Config, s: State, w: nat, p: ResponsePacket, k: nat): State
    requires k < |s.respSlots| && (c.dispatcherSrq ==> s.dPosted != [])
  {
    var s1 := s.(respWire := s.respWire - multiset{p}, respSlots := s.respSlots[k := Fetched(s, p)]);
    if c.dispatcherSrq then s1.(dPosted := s.dPosted[1..], dCq := s.dCq + [k]) else s1
  }

  /** A response under way finds a posted buffer, even between the mailbox flip and the repost. */
  lemma ResponseCredit(c: Config, s: State, a: History, w: nat)
    requires WellFormed(c) && Shape(c, s) && HistoryShape(c, a) && w < c.workers && c.dispatcherSrq
    requires a.stage[w].RespWire? && WorkersOk(c, s, a)
    requires DispatcherCounts(c, a, s.dispatched, s.received, s.dpc, s.dPosted, s.dCq)
    ensures s.dPosted != []
  {
    assert LandSeq(c, a)[w] == 0;
    if s.dpc.Repost? {
      var v := s.dpc.w;
      assert WorkerFlags(c, v, s.workers[v], a.done[v], a.stage[v], s.reqSlots[v], s.transfered[v], s.mailboxes[v], s.dpc);
      assert LandSeq(c, a)[v] == 0;
      TotalTwoHoles(LandSeq(c, a), w, v);
    } else {
      TotalHole(LandSeq(c, a), w);
    }
  }

  lemma ResponseRemoved(c: Config, a: History, a': History, w: nat, p: ResponsePacket, k: nat,
                        wire: multiset<ResponsePacket>)
    requires WellFormed(c) && Agree(c, a, a', w) && ResponseWireOk(c, a, wire) && p in wire && p.origin == w
    requires a' == a.(stage := a.stage[w := Landed(k)])
    ensures ResponseWireOk(c, a', wire - multiset{p})
  {
    var wire' := wire - multiset{p};
    assert ResponsePacketOk(c, a, p);
    assert wire[p] == 1;
    assert p !in wire';
    forall q | q in wire' ensures ResponsePacketOk(c, a', q) {
      assert q in wire && q != p;
      assert ResponsePacketOk(c, a, q);
    }
    forall u | 0 <= u < c.workers && a'.stage[u].RespWire? ensures wire'[ReplyPacket(c, u, a'.done[u])] == 1 {
      assert ReplyPacket(c, u, a.done[u]) != p;
    }
  }

  lemma LandingCounts(c: Config, s: State, a: History, a': History, w: nat, p: ResponsePacket, k: nat)
    requires WellFormed(c) && Landing(c, s, a, a', w, p, k)
    requires DispatcherCounts(c, a, s.dispatched, s.received, s.dpc, s.dPosted, s.dCq)
    ensures var s' := LandedState(c, s, w, p, k);
            DispatcherCounts(c, a', s'.dispatched, s'.received, s'.dpc, s'.dPosted, s'.dCq)
  {
    hide HeldBuffers;
    DispatcherTotals(c, a, a', w);
  }

  lemma LandingQueues(c: Config, s: State, a: History, a': History, w: nat, p: ResponsePacket, k: nat)
    requires WellFormed(c) && Landing(c, s, a, a', w, p, k)
    requires DispatcherQueuesOk(c, s.dpc, s.dPosted, s.dCq)
    ensures Shape(c, LandedState(c, s, w, p, k))
    ensures var s' := LandedState(c, s, w, p, k); DispatcherQueuesOk(c, s'.dpc, s'.dPosted, s'.dCq)
    ensures c.dispatcherSrq ==> k !in s.dCq && k !in HeldBuffers(s.dpc)
  {
    hide Distinct, HeldBuffers;
    if c.dispatcherSrq {
      MoveHead(s.dPosted, s.dCq, HeldBuffers(s.dpc));
    }
  }

  lemma PendingHeld(pc: DispatcherPc, k: nat)
    requires pc.Handle? ==> pc.j <= |pc.batch|
    requires pc.EmptySlot? || pc.FlipMailbox? || pc.Repost? ==> pc.j < |pc.batch|
    requires k in Pending(pc)
    ensures k in HeldBuffers(pc)
  {
    if pc.EmptySlot? || pc.FlipMailbox? || pc.Repost? {
      assert pc.batch[pc.j..] == [pc.batch[pc.j]] + pc.batch[pc.j + 1..];
    }
  }

  /** The slot the response lands in is not in use. */
  lemma SlotUnused(c: Config, s: State, a: History, a': History, w: nat, p: ResponsePacket, k: nat)
    requires WellFormed(c) && Landing(c, s, a, a', w, p, k)
    requires DispatcherOk(c, a, s.dpc, s.dPosted, s.dCq, s.respSlots)
    ensures k !in Pending(s.dpc) && k !in s.dCq && s.dpc != ClearFlag(k)
    ensures !c.dispatcherSrq ==> s.respSlots[k].transferFlag != 1
  {
    assert SlotOk(c, a, s.dpc, s.dCq, s.respSlots[k], k);
    if c.dispatcherSrq {
      LandingQueues(c, s, a, a', w, p, k);
      if k in Pending(s.dpc) {
        PendingHeld(s.dpc, k);
      }
    }
  }

  lemma LandingSlots(c: Config, s: State, a: History, a': History, w: nat, p: ResponsePacket, k: nat)
    requires WellFormed(c) && Landing(c, s, a, a', w, p, k)
    requires DispatcherOk(c, a, s.dpc, s.dPosted, s.dCq, s.respSlots)
    ensures Shape(c, LandedState(c, s, w, p, k))
    ensures var s' := LandedState(c, s, w, p, k); DispatcherOk(c, a', s'.dpc, s'.dPosted, s'.dCq, s'.respSlots)
  {
    var s' := LandedState(c, s, w, p, k);
    SlotUnused(c, s, a, a', w, p, k);
    LandingQueues(c, s, a, a', w, p, k);
    AddressRoundTrip(c.respBase, c.respSize, w);
    hide DispatcherQueuesOk, SlotIndex;
    assert OwnerOf(c, s'.respSlots[k], k) == w;
    forall d | 0 <= d < c.workers ensures SlotOk(c, a', s'.dpc, s'.dCq, s'.respSlots[d], d) {
      assert SlotOk(c, a, s.dpc, s.dCq, s.respSlots[d], d);
    }
    hide SlotOk;
    LandingPlaces(c, s, a, a', w, p, k);
  }

  lemma LandingPlaces(c: Config, s: State, a: History, a': History, w: nat, p: ResponsePacket, k: nat)
    requires WellFormed(c) && Landing(c, s, a, a', w, p, k) && k !in Pending(s.dpc) && k !in s.dCq
    requires OwnerOf(c, Reply(c, w, a.done[w]), k) == w && s.dpc != ClearFlag(k)
    requires !c.dispatcherSrq ==> s.respSlots[k].transferFlag != 1
    requires forall u :: 0 <= u < c.workers && a.done[u] < c.requests ==>
               DispatcherPlace(c, u, a.done[u], a.stage[u], s.dpc, s.dCq, s.respSlots)
    ensures var s' := LandedState(c, s, w, p, k);
            forall u :: 0 <= u < c.workers && a'.done[u] < c.requests ==>
              DispatcherPlace(c, u, a'.done[u], a'.stage[u], s'.dpc, s'.dCq, s'.respSlots)
  {
    var s' := LandedState(c, s, w, p, k);
    forall u | 0 <= u < c.workers && a'.done[u] < c.requests
      ensures DispatcherPlace(c, u, a'.done[u], a'.stage[u], s'.dpc, s'.dCq, s'.respSlots)
    {
      assert DispatcherPlace(c, u, a.done[u], a.stage[u], s.dpc, s.dCq, s.respSlots);
    }
  }

  lemma LandingElsewhere(c: Config, s: State, a: History, a': History, w: nat, p: ResponsePacket, k: nat)
    requires WellFormed(c) && Inv(c, s, a) && Landing(c, s, a, a', w, p, k)
    ensures WorkersOk(c, s, a') && RequestWireOk(c, a', s.reqWire)
    ensures forall q :: 0 <= q < c.receivers ==> ReceiverAll(c, a', q, s.receivers[q])
  {
    hide ReceiverAll, RequestWireOk, ResponseWireOk, DispatcherOk, PhaseOk, DispatcherCounts, WorkersOk;
    WorkersFrame(c, s, a, a', w);
    RequestWireFrame(c, a, a', w, s.reqWire);
    forall q | 0 <= q < c.receivers ensures ReceiverAll(c, a', q, s.receivers[q]) {
      assert ReceiverAll(c, a, q, s.receivers[q]);
      ReceiverFrame(c, a, a', w, q, s.receivers[q]);
    }
  }

  lemma ResponseArrives(c: Config, s: State, a: History, p: ResponsePacket, s': State) returns (a': History)
    requires WellFormed(c) && Shape(c, s) && p in s.respWire
    requires s' == Apply(c, s, DeliverResponse(p)) && Inv(c, s, a)
    ensures Inv(c, s', a') && a' == SetStage(a, p.origin, Landed(SlotFor(c, s, p.origin)))
  {
    hide ReceiverAll, RequestWireOk, ResponseWireOk, DispatcherOk, DispatcherCounts, WorkersOk, Apply, Fetched, Reply,
         ResponsePacketOk, SlotFor;
    var w, k: nat;
    a', w, k := Land(c, s, a, p);
    LandingApplied(c, s, a, a', w, p, k);
    ResponseRemoved(c, a, a', w, p, k, s.respWire);
    LandingSlots(c, s, a, a', w, p, k);
    LandingCounts(c, s, a, a', w, p, k);
    LandingElsewhere(c, s, a, a', w, p, k);
    WorkersSame(c, s, LandedState(c, s, w, p, k), a');
  }

  lemma Land(c: Config, s: State, a: History, p: ResponsePacket) returns (a': History, w: nat, k: nat)
    requires WellFormed(c) && Shape(c, s) && p in s.respWire && Inv(c, s, a)
    ensures Landing(c, s, a, a', w, p, k)
  {
    hide ReceiverAll, RequestWireOk, DispatcherOk, DispatcherCounts, WorkersOk;
    assert ResponsePacketOk(c, a, p) && p.origin < c.workers && a.stage[p.origin].RespWire?;
    hide ResponseWireOk;
    w := p.origin;
    FetchedReply(c, s, a, p);
    if c.dispatcherSrq {
      ResponseCredit(c, s, a, w);
      PostedInRange(c, s, a);
    }
    k := SlotFor(c, s, w);
    a' := a.(stage := a.stage[w := Landed(k)]);
  }

  lemma LandingApplied(c: Config, s: State, a: History, a': History, w: nat, p: ResponsePacket, k: nat)
    requires WellFormed(c) && Landing(c, s, a, a', w, p, k) && p in s.respWire
    requires DispatcherOk(c, a, s.dpc, s.dPosted, s.dCq, s.respSlots)
    ensures Apply(c, s, DeliverResponse(p)) == LandedState(c, s, w, p, k)
  {
    AddressRoundTrip(c.respBase, c.respSize, w);
    SlotUnused(c, s, a, a', w, p, k);
    hide DispatcherOk;
  }

  lemma PostedInRange(c: Config, s: State, a: History)
    requires WellFormed(c) && Shape(c, s) && HistoryShape(c, a) && c.dispatcherSrq && s.dPosted != []
    requires DispatcherOk(c, a, s.dpc, s.dPosted, s.dCq, s.respSlots)
    ensures s.dPosted[0] < c.workers
  {
    assert s.dPosted[0] in s.dPosted;
  }

  /** What is read from the receiver's memory on arrival is the answer to the worker's current request. */
  lemma FetchedReply(c: Config, s: State, a: History, p: ResponsePacket)
    requires WellFormed(c) && Inv(c, s, a) && ResponsePacketOk(c, a, p)
    ensures p.from < c.receivers && Fetched(s, p) == Reply(c, p.origin, a.done[p.origin])
  {
    hide RequestWireOk, ResponseWireOk, DispatcherOk, DispatcherCounts, WorkersOk, ReceiverOk, ReceiverCounts;
    var w := p.origin;
    var r := p.from;
    assert r == Target(c, w, a.done[w]);
    assert ReceiverAll(c, a, r, s.receivers[r]);
    assert ReceiverPlace(c, w, a.done[w], a.stage[w], r, s.receivers[r]);
  }
}
