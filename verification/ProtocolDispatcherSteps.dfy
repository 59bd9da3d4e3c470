/** Steps of the dispatcher keep the invariant. */
module ProtocolDispatcherSteps {
  import opened Sums
  import opened Partition
  import opened Protocol
  import opened ProtocolInvariant
  import opened ProtocolFrames

  predicate AtDispatcher(st: Stage) {
    st.Own? || st.Picked? || st.Landed? || st.Taken? || st.Clearing? || st.Mailing? || st.Mail?
  }

  /** Receivers and responses in flight do not notice what the dispatcher does with a slot. */
  lemma Elsewhere(c: Config, s: State, a: History, a': History, w: nat)
    requires WellFormed(c) && Inv(c, s, a) && Agree(c, a, a', w) && a'.done == a.done && a'.fin == a.fin
    requires AtDispatcher(a.stage[w]) && (AtDispatcher(a'.stage[w]) || a'.stage[w].ReqWire?)
    requires Answered(a.stage[w]) == Answered(a'.stage[w])
    ensures ResponseWireOk(c, a', s.respWire)
    ensures !a'.stage[w].ReqWire? ==> RequestWireOk(c, a', s.reqWire)
    ensures forall r :: 0 <= r < c.receivers ==> ReceiverAll(c, a', r, s.receivers[r])
  {
    hide ReceiverAll, RequestWireOk, ResponseWireOk, DispatcherOk, PhaseOk, WorkersOk, DispatcherCounts;
    ResponseWireFrame(c, a, a', w, s.respWire);
    if !a'.stage[w].ReqWire? {
      RequestWireFrame(c, a, a', w, s.reqWire);
    }
    forall r | 0 <= r < c.receivers ensures ReceiverAll(c, a', r, s.receivers[r]) {
      assert ReceiverAll(c, a, r, s.receivers[r]);
      ReceiverFrame(c, a, a', w, r, s.receivers[r]);
    }
  }

  /** Program counters at which no worker's request is in the dispatcher's hands. */
  predicate Plain(pc: DispatcherPc) {
    pc.Top? || pc.Scan? || pc.PollFlag? || pc.PollQueue? || pc.Handle? || pc.Halted?
  }

  lemma QuietWorkers(c: Config, s: State, a: History, pc: DispatcherPc)
    requires WellFormed(c) && Shape(c, s) && HistoryShape(c, a) && WorkersOk(c, s, a)
    requires Plain(s.dpc) && Plain(pc) && DispatcherShape(c, pc)
    ensures WorkersOk(c, s.(dpc := pc), a)
  {
    var s' := s.(dpc := pc);
    forall u | 0 <= u < c.workers ensures
      WorkerFlags(c, u, s'.workers[u], a.done[u], a.stage[u], s'.reqSlots[u], s'.transfered[u], s'.mailboxes[u], s'.dpc)
    {
      assert WorkerFlags(c, u, s.workers[u], a.done[u], a.stage[u], s.reqSlots[u], s.transfered[u], s.mailboxes[u], s.dpc);
    }
  }

  lemma QuietKeeps(c: Config, s: State, a: History, pc: DispatcherPc)
    requires WellFormed(c) && Inv(c, s, a)
    requires Plain(s.dpc) && Plain(pc) && DispatcherShape(c, pc) && Pending(pc) == Pending(s.dpc)
    requires pc.PollQueue? ==> c.dispatcherSrq
    requires pc.PollFlag? ==> !c.dispatcherSrq
    requires pc.Halted? ==> !s.running
    ensures Inv(c, s.(dpc := pc), a)
  {
    hide ReceiverAll, RequestWireOk, ResponseWireOk, WorkersOk;
    QuietWorkers(c, s, a, pc);
    assert DispatcherQueuesOk(c, pc, s.dPosted, s.dCq);
    hide DispatcherOk;
    SlotsSame(c, a, s.dpc, s.dPosted, s.dCq, s.respSlots, pc, s.dPosted);
  }

  /** The scan stops at a slot only if its request has not been forwarded yet. */
  lemma PickKeeps(c: Config, s: State, a: History) returns (a': History)
    requires WellFormed(c) && Inv(c, s, a) && s.dpc.Scan? && s.dpc.k < c.workers
    requires s.reqSlots[s.dpc.k].kind != EMPTY && !s.transfered[s.dpc.k]
    ensures Inv(c, s.(dpc := Forward(s.dpc.k)), a') && a' == SetStage(a, s.dpc.k, Picked)
  {
    hide ReceiverAll, RequestWireOk, ResponseWireOk, DispatcherOk, DispatcherCounts;
    var k := s.dpc.k;
    var s' := s.(dpc := Forward(k));
    assert WorkerFlags(c, k, s.workers[k], a.done[k], a.stage[k], s.reqSlots[k], s.transfered[k], s.mailboxes[k], s.dpc);
    assert a.stage[k].Own?;
    a' := a.(stage := a.stage[k := Picked]);
    assert WorkersOk(c, s', a') by {
      forall u | 0 <= u < c.workers ensures
        WorkerFlags(c, u, s'.workers[u], a'.done[u], a'.stage[u], s'.reqSlots[u], s'.transfered[u], s'.mailboxes[u], s'.dpc)
      {
        assert WorkerFlags(c, u, s.workers[u], a.done[u], a.stage[u], s.reqSlots[u], s.transfered[u], s.mailboxes[u], s.dpc);
      }
    }
    hide WorkersOk, WorkerFlags;
    Elsewhere(c, s, a, a', k);
    ScanPlaces(c, s, a, a', k, Forward(k));
  }

  /** Between the scan and the post no response slot is touched. */
  lemma ScanPlaces(c: Config, s: State, a: History, a': History, w: nat, pc: DispatcherPc)
    requires WellFormed(c) && Shape(c, s) && Agree(c, a, a', w)
    requires (s.dpc.Scan? && pc.Forward?) || (s.dpc.Forward? && pc.Scan?)
    requires DispatcherShape(c, pc) && a'.done == a.done
    requires DispatcherOk(c, a, s.dpc, s.dPosted, s.dCq, s.respSlots)
    requires DispatcherCounts(c, a, s.dispatched, s.received, s.dpc, s.dPosted, s.dCq)
    requires (a.stage[w].Own? && a'.stage[w].Picked?) || (a.stage[w].Picked? && a'.stage[w].ReqWire?)
    ensures DispatcherOk(c, a', pc, s.dPosted, s.dCq, s.respSlots)
    ensures DispatcherCounts(c, a', s.dispatched + Forwarded(a'.stage[w]), s.received, pc, s.dPosted, s.dCq)
  {
    assert DispatcherCounts(c, a', s.dispatched + Forwarded(a'.stage[w]), s.received, pc, s.dPosted, s.dCq) by {
      DispatcherTotals(c, a, a', w);
    }
    assert DispatcherQueuesOk(c, pc, s.dPosted, s.dCq);
    hide DispatcherCounts, DispatcherOk;
    DispatcherFrame(c, a, a', w, s.dpc, s.dPosted, s.dCq, s.respSlots);
    SlotsSame(c, a', s.dpc, s.dPosted, s.dCq, s.respSlots, pc, s.dPosted);
  }

  lemma ForwardKeeps(c: Config, s: State, a: History) returns (a': History)
    requires WellFormed(c) && Inv(c, s, a) && s.dpc.Forward?
    ensures Inv(c, Dispatch(c, s, false), a') && a' == SetStage(a, s.dpc.k, ReqWire)
  {
    hide ReceiverAll, RequestWireOk, ResponseWireOk, DispatcherOk, DispatcherCounts;
    var k := s.dpc.k;
    var s' := Dispatch(c, s, false);
    assert WorkerFlags(c, k, s.workers[k], a.done[k], a.stage[k], s.reqSlots[k], s.transfered[k], s.mailboxes[k], s.dpc);
    assert a.stage[k].Picked? && s.reqSlots[k] == Request(c, k, a.done[k]);
    a' := a.(stage := a.stage[k := ReqWire]);
    assert WorkersOk(c, s', a') by {
      forall u | 0 <= u < c.workers ensures
        WorkerFlags(c, u, s'.workers[u], a'.done[u], a'.stage[u], s'.reqSlots[u], s'.transfered[u], s'.mailboxes[u], s'.dpc)
      {
        assert WorkerFlags(c, u, s.workers[u], a.done[u], a.stage[u], s.reqSlots[u], s.transfered[u], s.mailboxes[u], s.dpc);
      }
    }
    hide WorkersOk, WorkerFlags;
    Elsewhere(c, s, a, a', k);
    ScanPlaces(c, s, a, a', k, Scan(k + 1));
    RequestPosted(c, a, a', k, s.reqWire);
  }

  lemma RequestPosted(c: Config, a: History, a': History, w: nat, wire: multiset<RequestPacket>)
    requires WellFormed(c) && Agree(c, a, a', w) && RequestWireOk(c, a, wire)
    requires a.stage[w].Picked? && a' == a.(stage := a.stage[w := ReqWire])
    ensures RequestWireOk(c, a', wire + multiset{ForwardedPacket(c, w, a.done[w])})
  {
    var p := ForwardedPacket(c, w, a.done[w]);
    var wire' := wire + multiset{p};
    assert !RequestPacketOk(c, a, p);
    assert p !in wire;
    forall q | q in wire' ensures RequestPacketOk(c, a', q) {
      assert q != p ==> RequestPacketOk(c, a, q);
    }
    forall u | 0 <= u < c.workers && a'.stage[u].ReqWire? ensures wire'[ForwardedPacket(c, u, a'.done[u])] == 1 {
      assert u != w ==> ForwardedPacket(c, u, a.done[u]) != p;
    }
    forall u, r | 0 <= u < c.workers && 0 <= r < c.receivers && a'.fin[u][r].FWire?
      ensures wire'[FinishPacket(c, u, r)] == 1
    {
      assert FinishPacket(c, u, r) != p;
    }
  }

  /* ---- taking a landed response ---- */

  /** The dispatcher takes the landed response in slot k of worker w. */
  ghost predicate Taking(c: Config, s: State, s': State, a: History, a': History, w: nat, k: nat)
    requires WellFormed(c)
  {
    && Shape(c, s) && Shape(c, s') && Agree(c, a, a', w) && k < c.workers
    && IsLanded(c, s.dpc, s.dCq, s.respSlots[k], k) && OwnerOf(c, s.respSlots[k], k) == w
    && a.stage[w] == Landed(k) && a' == a.(stage := a.stage[w := Taken(k)])
    && ((s.dpc == PollFlag(k) && s' == s.(dpc := ClearFlag(k)) && !c.dispatcherSrq)
        || (s.dpc.PollQueue? && s.dCq != [] && s.dCq[0] == k && c.dispatcherSrq
            && s' == s.(dCq := s.dCq[1..], dpc := PollQueue(s.dpc.batch + [k]))))
  }

  lemma TakeKeeps(c: Config, s: State, a: History, s': State, k: nat) returns (a': History)
    requires WellFormed(c) && Inv(c, s, a) && Shape(c, s') && k < c.workers
    requires (s.dpc == PollFlag(k) && s.respSlots[k].transferFlag == 1 && s' == s.(dpc := ClearFlag(k)))
             || (s.dpc.PollQueue? && s.dCq != [] && s.dCq[0] == k
                 && s' == s.(dCq := s.dCq[1..], dpc := PollQueue(s.dpc.batch + [k])))
    ensures Inv(c, s', a') && a' == SetStage(a, OwnerOf(c, s.respSlots[k], k), Taken(k))
  {
    hide ReceiverAll, RequestWireOk, ResponseWireOk, DispatcherCounts, WorkersOk, DispatcherOk;
    LandedOwner(c, s, a, k);
    var w := OwnerOf(c, s.respSlots[k], k);
    a' := a.(stage := a.stage[w := Taken(k)]);
    TakeWorkers(c, s, s', a, a', w, k);
    TakeSlots(c, s, s', a, a', w, k);
    TakeCounts(c, s, s', a, a', w, k);
    Elsewhere(c, s, a, a', w);
  }

  lemma LandedOwner(c: Config, s: State, a: History, k: nat)
    requires WellFormed(c) && Shape(c, s) && HistoryShape(c, a) && k < c.workers
    requires DispatcherOk(c, a, s.dpc, s.dPosted, s.dCq, s.respSlots)
    requires (s.dpc == PollFlag(k) && s.respSlots[k].transferFlag == 1)
             || (s.dpc.PollQueue? && s.dCq != [] && s.dCq[0] == k)
    ensures s.dpc.PollFlag? <==> !c.dispatcherSrq
    ensures IsLanded(c, s.dpc, s.dCq, s.respSlots[k], k)
    ensures 0 <= OwnerOf(c, s.respSlots[k], k) < c.workers && a.stage[OwnerOf(c, s.respSlots[k], k)] == Landed(k)
  {
    hide Distinct, OwnerOf, DispatcherPlace;
    assert SlotOk(c, a, s.dpc, s.dCq, s.respSlots[k], k);
    assert s.dpc.PollQueue? ==> s.dCq[0] in s.dCq;
  }

  lemma TakeWorkers(c: Config, s: State, s': State, a: History, a': History, w: nat, k: nat)
    requires WellFormed(c) && Taking(c, s, s', a, a', w, k) && WorkersOk(c, s, a)
    ensures WorkersOk(c, s', a')
  {
    forall u | 0 <= u < c.workers ensures
      WorkerFlags(c, u, s'.workers[u], a'.done[u], a'.stage[u], s'.reqSlots[u], s'.transfered[u], s'.mailboxes[u], s'.dpc)
    {
      assert WorkerFlags(c, u, s.workers[u], a.done[u], a.stage[u], s.reqSlots[u], s.transfered[u], s.mailboxes[u], s.dpc);
    }
  }

  lemma TakeCounts(c: Config, s: State, s': State, a: History, a': History, w: nat, k: nat)
    requires WellFormed(c) && Taking(c, s, s', a, a', w, k)
    requires DispatcherCounts(c, a, s.dispatched, s.received, s.dpc, s.dPosted, s.dCq)
    ensures DispatcherCounts(c, a', s'.dispatched, s'.received, s'.dpc, s'.dPosted, s'.dCq)
  {
    DispatcherTotals(c, a, a', w);
  }

  lemma TakeQueues(c: Config, s: State)
    requires WellFormed(c) && Shape(c, s) && s.dpc.PollQueue? && s.dCq != []
    requires DispatcherQueuesOk(c, s.dpc, s.dPosted, s.dCq)
    ensures c.dispatcherSrq && s.dCq[0] !in s.dCq[1..] && s.dCq[0] !in s.dpc.batch
    ensures s.dCq[0] in s.dCq && forall x :: x in s.dCq[1..] ==> x in s.dCq
    ensures DispatcherShape(c, PollQueue(s.dpc.batch + [s.dCq[0]]))
    ensures DispatcherQueuesOk(c, PollQueue(s.dpc.batch + [s.dCq[0]]), s.dPosted, s.dCq[1..])
  {
    var k := s.dCq[0];
    assert k in s.dCq;
    assert forall x :: x in s.dpc.batch + [k] ==> x in s.dpc.batch || x == k;
    assert multiset(s.dPosted) + multiset(s.dCq) + multiset(s.dpc.batch) ==
           multiset(s.dCq) + multiset(s.dpc.batch) + multiset(s.dPosted);
    MoveHead(s.dCq, s.dpc.batch, s.dPosted);
    assert multiset(s.dPosted) + multiset(s.dCq[1..]) + multiset(s.dpc.batch + [k]) ==
           multiset(s.dCq[1..]) + multiset(s.dpc.batch + [k]) + multiset(s.dPosted);
  }

  lemma TakeSlots(c: Config, s: State, s': State, a: History, a': History, w: nat, k: nat)
    requires WellFormed(c) && Taking(c, s, s', a, a', w, k)
    requires DispatcherOk(c, a, s.dpc, s.dPosted, s.dCq, s.respSlots)
    ensures DispatcherOk(c, a', s'.dpc, s'.dPosted, s'.dCq, s'.respSlots)
  {
    if s.dpc.PollQueue? {
      TakeQueues(c, s);
      assert s.dCq == [k] + s.dCq[1..];
    }
    hide Distinct;
    forall d | 0 <= d < c.workers ensures SlotOk(c, a', s'.dpc, s'.dCq, s'.respSlots[d], d) {
      assert SlotOk(c, a, s.dpc, s.dCq, s.respSlots[d], d);
    }
    forall u | 0 <= u < c.workers && a'.done[u] < c.requests
      ensures DispatcherPlace(c, u, a'.done[u], a'.stage[u], s'.dpc, s'.dCq, s'.respSlots)
    {
      assert DispatcherPlace(c, u, a.done[u], a.stage[u], s.dpc, s.dCq, s.respSlots);
    }
  }

  /** Resetting the flag of the response just taken. */
  lemma ClearKeeps(c: Config, s: State, a: History)
    requires WellFormed(c) && Inv(c, s, a) && s.dpc.ClearFlag?
    ensures Inv(c, Dispatch(c, s, false), a)
  {
    hide ReceiverAll, RequestWireOk, ResponseWireOk, WorkersOk, DispatcherOk;
    var s' := Dispatch(c, s, false);
    ClearWorkers(c, s, a);
    ClearSlots(c, a, s.dpc.k, s.dPosted, s.dCq, s.respSlots);
    assert Pending(s'.dpc) == [s.dpc.k];
  }

  lemma ClearWorkers(c: Config, s: State, a: History)
    requires WellFormed(c) && Shape(c, s) && HistoryShape(c, a) && WorkersOk(c, s, a) && s.dpc.ClearFlag?
    ensures WorkersOk(c, Dispatch(c, s, false), a)
  {
    var s' := Dispatch(c, s, false);
    forall u | 0 <= u < c.workers ensures
      WorkerFlags(c, u, s'.workers[u], a.done[u], a.stage[u], s'.reqSlots[u], s'.transfered[u], s'.mailboxes[u], s'.dpc)
    {
      assert WorkerFlags(c, u, s.workers[u], a.done[u], a.stage[u], s.reqSlots[u], s.transfered[u], s.mailboxes[u], s.dpc);
    }
  }

  lemma ClearSlots(c: Config, a: History, k: nat, posted: seq<nat>, cq: seq<nat>, slots: seq<Response>)
    requires WellFormed(c) && HistoryShape(c, a) && |slots| == c.workers && k < c.workers
    requires DispatcherOk(c, a, ClearFlag(k), posted, cq, slots)
    ensures DispatcherOk(c, a, Handle([k], 0), posted, cq, slots[k := slots[k].(transferFlag := 0)])
  {
    var slots' := slots[k := slots[k].(transferFlag := 0)];
    var pc := ClearFlag(k);
    var pc' := Handle([k], 0);
    assert Pending(pc') == [k];
    forall d | 0 <= d < c.workers ensures SlotOk(c, a, pc', cq, slots'[d], d) {
      assert SlotOk(c, a, pc, cq, slots[d], d);
    }
    forall u | 0 <= u < c.workers && a.done[u] < c.requests
      ensures DispatcherPlace(c, u, a.done[u], a.stage[u], pc', cq, slots')
    {
      assert DispatcherPlace(c, u, a.done[u], a.stage[u], pc, cq, slots);
    }
  }

  /* ---- handling a taken response ---- */

  /** The owner found for a taken response is the worker whose request was forwarded. */
  lemma HandleKeeps(c: Config, s: State, a: History) returns (a': History)
    requires WellFormed(c) && Inv(c, s, a) && s.dpc.Handle? && s.dpc.j < |s.dpc.batch|
    ensures Inv(c, Dispatch(c, s, false), a') && a' == AfterDispatch(c, s, a, false)
  {
    hide ReceiverAll, RequestWireOk, ResponseWireOk, DispatcherCounts, WorkersOk, DispatcherOk, Dispatch;
    var w: nat;
    a', w := FindOwner(c, s, a);
    HandleWorkers(c, s, a, a', w);
    HandleSlots(c, s, a, a', w);
    HandleCounts(c, s, a, a', w);
    Elsewhere(c, s, a, a', w);
  }

  lemma FindOwner(c: Config, s: State, a: History) returns (a': History, w: nat)
    requires WellFormed(c) && Inv(c, s, a) && s.dpc.Handle? && s.dpc.j < |s.dpc.batch|
    ensures Handling(c, s, a, a', w) && a' == AfterDispatch(c, s, a, false)
  {
    hide ReceiverAll, RequestWireOk, ResponseWireOk, DispatcherCounts, PhaseOk;
    var batch, j := s.dpc.batch, s.dpc.j;
    var k := batch[j];
    assert k in batch;
    assert k in Pending(s.dpc);
    assert SlotOk(c, a, s.dpc, s.dCq, s.respSlots[k], k);
    w := OwnerOf(c, s.respSlots[k], k);
    hide DispatcherOk;
    assert WorkerFlags(c, w, s.workers[w], a.done[w], a.stage[w], s.reqSlots[w], s.transfered[w], s.mailboxes[w], s.dpc);
    assert s.transfered[w];
    a' := a.(stage := a.stage[w := Clearing]);
  }

  ghost predicate Handling(c: Config, s: State, a: History, a': History, w: nat)
    requires WellFormed(c)
  {
    && Shape(c, s) && Agree(c, a, a', w) && s.dpc.Handle? && s.dpc.j < |s.dpc.batch|
    && var k := s.dpc.batch[s.dpc.j];
    && k < c.workers && OwnerOf(c, s.respSlots[k], k) == w && a.stage[w] == Taken(k)
    && a' == a.(stage := a.stage[w := Clearing])
    && Dispatch(c, s, false) == s.(received := s.received + 1, transfered := s.transfered[w := false],
                                   dpc := EmptySlot(s.dpc.batch, s.dpc.j, w))
  }

  lemma HandleWorkers(c: Config, s: State, a: History, a': History, w: nat)
    requires WellFormed(c) && Handling(c, s, a, a', w) && WorkersOk(c, s, a)
    ensures Shape(c, Dispatch(c, s, false)) && WorkersOk(c, Dispatch(c, s, false), a')
  {
    var s' := Dispatch(c, s, false);
    forall u | 0 <= u < c.workers ensures
      WorkerFlags(c, u, s'.workers[u], a'.done[u], a'.stage[u], s'.reqSlots[u], s'.transfered[u], s'.mailboxes[u], s'.dpc)
    {
      assert WorkerFlags(c, u, s.workers[u], a.done[u], a.stage[u], s.reqSlots[u], s.transfered[u], s.mailboxes[u], s.dpc);
    }
  }

  lemma HandleCounts(c: Config, s: State, a: History, a': History, w: nat)
    requires WellFormed(c) && Handling(c, s, a, a', w)
    requires DispatcherCounts(c, a, s.dispatched, s.received, s.dpc, s.dPosted, s.dCq)
    ensures DispatcherCounts(c, a', s.dispatched, s.received + 1, EmptySlot(s.dpc.batch, s.dpc.j, w), s.dPosted, s.dCq)
  {
    DispatcherTotals(c, a, a', w);
  }

  lemma HandleSlots(c: Config, s: State, a: History, a': History, w: nat)
    requires WellFormed(c) && Handling(c, s, a, a', w)
    requires DispatcherOk(c, a, s.dpc, s.dPosted, s.dCq, s.respSlots)
    ensures DispatcherOk(c, a', EmptySlot(s.dpc.batch, s.dpc.j, w), s.dPosted, s.dCq, s.respSlots)
  {
    var batch, j := s.dpc.batch, s.dpc.j;
    var k := batch[j];
    var pc' := EmptySlot(batch, j, w);
    assert Pending(s.dpc) == [k] + Pending(pc');
    assert k !in Pending(pc') && k !in s.dCq by {
      HeldOnce(c, s, k);
    }
    assert HeldBuffers(pc') == HeldBuffers(s.dpc);
    hide Distinct;
    forall d | 0 <= d < c.workers ensures SlotOk(c, a', pc', s.dCq, s.respSlots[d], d) {
      assert SlotOk(c, a, s.dpc, s.dCq, s.respSlots[d], d);
    }
    forall u | 0 <= u < c.workers && a'.done[u] < c.requests
      ensures DispatcherPlace(c, u, a'.done[u], a'.stage[u], pc', s.dCq, s.respSlots)
    {
      assert DispatcherPlace(c, u, a.done[u], a.stage[u], s.dpc, s.dCq, s.respSlots);
    }
  }

  lemma HeldOnce(c: Config, s: State, k: nat)
    requires WellFormed(c) && Shape(c, s) && s.dpc.Handle? && s.dpc.j < |s.dpc.batch| && k == s.dpc.batch[s.dpc.j]
    requires DispatcherQueuesOk(c, s.dpc, s.dPosted, s.dCq)
    ensures k !in s.dpc.batch[s.dpc.j + 1..] && k !in s.dCq
  {
    var held := s.dpc.batch[s.dpc.j..];
    assert held[0] == k && held[1..] == s.dpc.batch[s.dpc.j + 1..];
    if c.dispatcherSrq {
      assert multiset(s.dPosted) + multiset(s.dCq) + multiset(held) ==
             multiset(held) + multiset(s.dPosted) + multiset(s.dCq);
      MoveHead(held, s.dPosted, s.dCq);
    }
  }

  /** Emptying the slot, flipping the mailbox and reposting: the write order of the run loop. */
  lemma AdvanceKeeps(c: Config, s: State, a: History) returns (a': History)
    requires WellFormed(c) && Inv(c, s, a) && (s.dpc.EmptySlot? || s.dpc.FlipMailbox? || s.dpc.Repost?)
    ensures Inv(c, Dispatch(c, s, false), a') && a' == AfterDispatch(c, s, a, false)
  {
    hide ReceiverAll, RequestWireOk, ResponseWireOk, DispatcherOk, DispatcherCounts, WorkersOk;
    var w: nat;
    a', w := Advance(c, s, a);
    AdvanceWorkers(c, s, a, a', w);
    AdvanceSlots(c, s, a, a', w);
    AdvanceCounts(c, s, a, a', w);
    AdvanceElsewhere(c, s, a, a', w);
  }

  lemma Advance(c: Config, s: State, a: History) returns (a': History, w: nat)
    requires WellFormed(c) && Shape(c, s) && HistoryShape(c, a) && WorkersOk(c, s, a)
    requires s.dpc.EmptySlot? || s.dpc.FlipMailbox? || s.dpc.Repost?
    ensures Advancing(c, s, a, a', w) && a' == AfterDispatch(c, s, a, false)
  {
    w := s.dpc.w;
    assert WorkerFlags(c, w, s.workers[w], a.done[w], a.stage[w], s.reqSlots[w], s.transfered[w], s.mailboxes[w], s.dpc);
    a' := if s.dpc.EmptySlot? then a.(stage := a.stage[w := Mailing])
          else if s.dpc.FlipMailbox? then a.(stage := a.stage[w := Mail]) else a;
  }

  lemma AdvanceElsewhere(c: Config, s: State, a: History, a': History, w: nat)
    requires WellFormed(c) && Inv(c, s, a) && Advancing(c, s, a, a', w)
    ensures ResponseWireOk(c, a', s.respWire) && RequestWireOk(c, a', s.reqWire)
    ensures forall r :: 0 <= r < c.receivers ==> ReceiverAll(c, a', r, s.receivers[r])
  {
    hide ReceiverAll, RequestWireOk, ResponseWireOk, DispatcherOk, DispatcherCounts, WorkersOk;
    if !s.dpc.Repost? {
      Elsewhere(c, s, a, a', w);
    }
  }

  ghost predicate Advancing(c: Config, s: State, a: History, a': History, w: nat)
    requires WellFormed(c)
  {
    && Shape(c, s) && Agree(c, a, a', w)
    && (s.dpc.EmptySlot? || s.dpc.FlipMailbox? || s.dpc.Repost?) && s.dpc.w == w
    && (s.dpc.EmptySlot? ==> a.stage[w].Clearing? && a' == a.(stage := a.stage[w := Mailing]))
    && (s.dpc.FlipMailbox? ==> a.stage[w].Mailing? && s.mailboxes[w] == 0 && a' == a.(stage := a.stage[w := Mail]))
    && (s.dpc.Repost? ==> a' == a)
  }

  lemma AdvanceWorkers(c: Config, s: State, a: History, a': History, w: nat)
    requires WellFormed(c) && Advancing(c, s, a, a', w) && WorkersOk(c, s, a)
    ensures Shape(c, Dispatch(c, s, false)) && WorkersOk(c, Dispatch(c, s, false), a')
  {
    hide FinishFlags, WorkerFlags, ReceiverShape, WellFormed;
    var s' := Dispatch(c, s, false);
    assert forall u :: 0 <= u < c.workers ==> FinishFlags(c, s'.workers[u], a'.fin[u]);
    forall u | 0 <= u < c.workers ensures
      WorkerFlags(c, u, s'.workers[u], a'.done[u], a'.stage[u], s'.reqSlots[u], s'.transfered[u], s'.mailboxes[u], s'.dpc)
    {
      AdvanceFlags(c, s, a, a', w, u);
    }
  }

  lemma AdvanceFlags(c: Config, s: State, a: History, a': History, w: nat, u: nat)
    requires WellFormed(c) && Advancing(c, s, a, a', w) && u < c.workers
    requires WorkerFlags(c, u, s.workers[u], a.done[u], a.stage[u], s.reqSlots[u], s.transfered[u], s.mailboxes[u], s.dpc)
    ensures Shape(c, Dispatch(c, s, false))
    ensures var s' := Dispatch(c, s, false);
            WorkerFlags(c, u, s'.workers[u], a'.done[u], a'.stage[u], s'.reqSlots[u], s'.transfered[u], s'.mailboxes[u], s'.dpc)
  {
    hide Request, ReceiverShape, WellFormed;
  }

  lemma AdvanceQueues(c: Config, s: State, a: History, a': History, w: nat)
    requires WellFormed(c) && Advancing(c, s, a, a', w) && DispatcherQueuesOk(c, s.dpc, s.dPosted, s.dCq)
    ensures var s' := Dispatch(c, s, false);
            DispatcherShape(c, s'.dpc) && DispatcherQueuesOk(c, s'.dpc, s'.dPosted, s'.dCq)
            && Pending(s'.dpc) == Pending(s.dpc)
  {
    hide DispatcherQueuesOk, Distinct;
    AdvancePc(c, s.dpc, s.dPosted, s.dCq);
  }

  /** Where AdvanceKeeps sends the program counter. */
  function NextPc(c: Config, pc: DispatcherPc): DispatcherPc {
    match pc
    case EmptySlot(batch, j, w) => FlipMailbox(batch, j, w)
    case FlipMailbox(batch, j, w) => if c.dispatcherSrq then Repost(batch, j, w) else Handle(batch, j + 1)
    case Repost(batch, j, _) => Handle(batch, j + 1)
    case _ => pc
  }

  lemma AdvancePc(c: Config, pc: DispatcherPc, posted: seq<nat>, cq: seq<nat>)
    requires (pc.EmptySlot? || pc.FlipMailbox? || pc.Repost?) && DispatcherShape(c, pc)
    requires DispatcherQueuesOk(c, pc, posted, cq)
    ensures DispatcherShape(c, NextPc(c, pc)) && Pending(NextPc(c, pc)) == Pending(pc)
    ensures DispatcherQueuesOk(c, NextPc(c, pc), if pc.Repost? then posted + [pc.batch[pc.j]] else posted, cq)
  {
    hide DispatcherQueuesOk;
    if pc.Repost? {
      RepostPc(c, pc, posted, cq);
    } else {
      InnerPc(c, pc, posted, cq);
    }
  }

  lemma RepostPc(c: Config, pc: DispatcherPc, posted: seq<nat>, cq: seq<nat>)
    requires pc.Repost? && DispatcherShape(c, pc) && DispatcherQueuesOk(c, pc, posted, cq)
    ensures DispatcherQueuesOk(c, Handle(pc.batch, pc.j + 1), posted + [pc.batch[pc.j]], cq)
  {
    hide Distinct;
    assert pc.batch[pc.j] in pc.batch;
    RepostQueues(posted, cq, pc.batch, pc.j);
    assert HeldBuffers(Handle(pc.batch, pc.j + 1)) == pc.batch[pc.j + 1..];
  }

  lemma InnerPc(c: Config, pc: DispatcherPc, posted: seq<nat>, cq: seq<nat>)
    requires (pc.EmptySlot? || pc.FlipMailbox?) && DispatcherShape(c, pc) && DispatcherQueuesOk(c, pc, posted, cq)
    ensures DispatcherQueuesOk(c, NextPc(c, pc), posted, cq)
  {
    hide Distinct;
    assert HeldBuffers(pc) == pc.batch[pc.j..];
  }

  lemma RepostQueues(posted: seq<nat>, cq: seq<nat>, batch: seq<nat>, j: nat)
    requires j < |batch| && Distinct(multiset(posted) + multiset(cq) + multiset(batch[j..]))
    ensures Distinct(multiset(posted + [batch[j]]) + multiset(cq) + multiset(batch[j + 1..]))
  {
    var held := batch[j..];
    assert held[0] == batch[j] && held[1..] == batch[j + 1..];
    assert multiset(posted) + multiset(cq) + multiset(held) == multiset(held) + multiset(posted) + multiset(cq);
    MoveHead(held, posted, cq);
    assert multiset(posted + [batch[j]]) + multiset(cq) + multiset(held[1..]) ==
           multiset(held[1..]) + multiset(posted + [batch[j]]) + multiset(cq);
  }

  lemma AdvanceCounts(c: Config, s: State, a: History, a': History, w: nat)
    requires WellFormed(c) && Advancing(c, s, a, a', w)
    requires DispatcherCounts(c, a, s.dispatched, s.received, s.dpc, s.dPosted, s.dCq)
    requires DispatcherQueuesOk(c, s.dpc, s.dPosted, s.dCq)
    ensures var s' := Dispatch(c, s, false);
            DispatcherShape(c, s'.dpc) && DispatcherCounts(c, a', s'.dispatched, s'.received, s'.dpc, s'.dPosted, s'.dCq)
  {
    hide DispatcherCounts;
    AdvanceQueues(c, s, a, a', w);
    hide DispatcherQueuesOk;
    var s' := Dispatch(c, s, false);
    CountsStep(c, a, a', w, s.dispatched, s.received, s.dpc, s.dPosted, s.dCq, s'.dpc, s'.dPosted);
  }

  lemma CountsStep(c: Config, a: History, a': History, w: nat, dispatched: nat, received: nat, pc: DispatcherPc,
                   posted: seq<nat>, cq: seq<nat>, pc': DispatcherPc, posted': seq<nat>)
    requires WellFormed(c) && Agree(c, a, a', w) && DispatcherShape(c, pc) && DispatcherShape(c, pc')
    requires DispatcherCounts(c, a, dispatched, received, pc, posted, cq)
    requires a'.done == a.done && Forwarded(a'.stage[w]) == Forwarded(a.stage[w])
    requires Collected(a'.stage[w]) == Collected(a.stage[w])
    requires c.dispatcherSrq ==> |posted'| + |HeldBuffers(pc')| == |posted| + |HeldBuffers(pc)|
    requires c.dispatcherSrq ==> |HeldBuffers(pc')| - B2I(pc'.Repost?) - Lands(a'.stage[w]) ==
                                 |HeldBuffers(pc)| - B2I(pc.Repost?) - Lands(a.stage[w])
    ensures DispatcherCounts(c, a', dispatched, received, pc', posted', cq)
  {
    hide HeldBuffers;
    DispatcherTotals(c, a, a', w);
  }

  lemma AdvanceSlots(c: Config, s: State, a: History, a': History, w: nat)
    requires WellFormed(c) && Advancing(c, s, a, a', w)
    requires DispatcherOk(c, a, s.dpc, s.dPosted, s.dCq, s.respSlots)
    ensures var s' := Dispatch(c, s, false);
            DispatcherShape(c, s'.dpc) && |s'.respSlots| == c.workers
            && DispatcherOk(c, a', s'.dpc, s'.dPosted, s'.dCq, s'.respSlots)
            && DispatcherQueuesOk(c, s.dpc, s.dPosted, s.dCq)
  {
    var s' := Dispatch(c, s, false);
    AdvanceQueues(c, s, a, a', w);
    hide DispatcherQueuesOk;
    assert DispatcherQueuesOk(c, s.dpc, s.dPosted, s.dCq);
    hide DispatcherOk;
    if s.dpc.Repost? {
      SlotsSame(c, a, s.dpc, s.dPosted, s.dCq, s.respSlots, s'.dpc, s'.dPosted);
    } else {
      DispatcherFrame(c, a, a', w, s.dpc, s.dPosted, s.dCq, s.respSlots);
      SlotsSame(c, a', s.dpc, s.dPosted, s.dCq, s.respSlots, s'.dpc, s'.dPosted);
    }
  }

  /** Only the pending responses matter to the slots, not where in the loop the dispatcher is. */
  lemma SlotsSame(c: Config, a: History, pc: DispatcherPc, posted: seq<nat>, cq: seq<nat>, slots: seq<Response>,
                  pc': DispatcherPc, posted': seq<nat>)
    requires WellFormed(c) && HistoryShape(c, a) && DispatcherShape(c, pc) && DispatcherShape(c, pc')
    requires |slots| == c.workers && DispatcherOk(c, a, pc, posted, cq, slots)
    requires DispatcherQueuesOk(c, pc', posted', cq)
    requires Pending(pc') == Pending(pc) && !pc.ClearFlag? && !pc'.ClearFlag?
    ensures DispatcherOk(c, a, pc', posted', cq, slots)
  {
    hide DispatcherQueuesOk, Pending, DispatcherShape;
    forall d | 0 <= d < c.workers ensures SlotOk(c, a, pc', cq, slots[d], d) {
      assert SlotOk(c, a, pc, cq, slots[d], d);
    }
    forall u | 0 <= u < c.workers && a.done[u] < c.requests
      ensures DispatcherPlace(c, u, a.done[u], a.stage[u], pc', cq, slots)
    {
      assert DispatcherPlace(c, u, a.done[u], a.stage[u], pc, cq, slots);
    }
  }

  lemma ScanKeeps(c: Config, s: State, a: History, stop: bool) returns (a': History)
    requires WellFormed(c) && Shape(c, s) && Inv(c, s, a) && (s.dpc.Top? || s.dpc.Scan?)
    ensures Inv(c, Dispatch(c, s, stop), a') && a' == AfterDispatch(c, s, a, stop)
  {
    hide Inv;
    if s.dpc.Scan? && s.dpc.k < c.workers && s.reqSlots[s.dpc.k].kind != EMPTY && !s.transfered[s.dpc.k] {
      a' := PickKeeps(c, s, a);
    } else {
      a' := a;
      QuietKeeps(c, s, a, Dispatch(c, s, stop).dpc);
    }
  }

  lemma PollFlagKeeps(c: Config, s: State, a: History, stop: bool) returns (a': History)
    requires WellFormed(c) && Inv(c, s, a) && s.dpc.PollFlag?
    ensures Inv(c, Dispatch(c, s, stop), a') && a' == AfterDispatch(c, s, a, stop)
  {
    hide ReceiverAll, RequestWireOk, ResponseWireOk, DispatcherCounts, WorkersOk;
    assert !c.dispatcherSrq;
    hide DispatcherOk;
    if s.dpc.k < c.workers && s.respSlots[s.dpc.k].transferFlag == 1 {
      a' := TakeKeeps(c, s, a, Dispatch(c, s, stop), s.dpc.k);
    } else {
      a' := a;
      QuietKeeps(c, s, a, Dispatch(c, s, stop).dpc);
    }
  }

  lemma PollQueueKeeps(c: Config, s: State, a: History, stop: bool) returns (a': History)
    requires WellFormed(c) && Inv(c, s, a) && s.dpc.PollQueue?
    ensures Inv(c, Dispatch(c, s, stop), a') && a' == AfterDispatch(c, s, a, stop)
  {
    hide ReceiverAll, RequestWireOk, ResponseWireOk, DispatcherCounts, WorkersOk, Distinct;
    if s.dCq != [] && |s.dpc.batch| < BATCH && (s.dpc.batch == [] || !stop) {
      TakeQueues(c, s);
      assert Shape(c, Dispatch(c, s, stop));
      a' := TakeKeeps(c, s, a, Dispatch(c, s, stop), s.dCq[0]);
    } else {
      a' := a;
      QuietKeeps(c, s, a, Dispatch(c, s, stop).dpc);
    }
  }

  lemma DispatcherKeeps(c: Config, s: State, a: History, stop: bool) returns (a': History)
    requires WellFormed(c) && Shape(c, s) && Enabled(c, s, DispatcherStep(stop)) && Inv(c, s, a)
    ensures Inv(c, Dispatch(c, s, stop), a') && a' == AfterDispatch(c, s, a, stop)
  {
    hide Inv;
    a' := a;
    match s.dpc
    case Top => a' := ScanKeeps(c, s, a, stop);
    case Scan(_) => a' := ScanKeeps(c, s, a, stop);
    case Forward(_) => a' := ForwardKeeps(c, s, a);
    case PollFlag(k) => a' := PollFlagKeeps(c, s, a, stop);
    case PollQueue(batch) => a' := PollQueueKeeps(c, s, a, stop);
    case ClearFlag(_) => ClearKeeps(c, s, a);
    case Handle(batch, j) =>
      if j < |batch| {
        a' := HandleKeeps(c, s, a);
      } else {
        QuietKeeps(c, s, a, Top);
      }
    case EmptySlot(_, _, _) => a' := AdvanceKeeps(c, s, a);
    case FlipMailbox(_, _, _) => a' := AdvanceKeeps(c, s, a);
    case Repost(_, _, _) => a' := AdvanceKeeps(c, s, a);
  }
}
