/** Steps of the workers and of the main thread keep the invariant. */
module ProtocolWorkerSteps {
  import opened Sums
  import opened Partition
  import opened Protocol
  import opened ProtocolInvariant
  import opened ProtocolFrames

  /** A worker's step leaves the other workers alone. */
  lemma OneWorker(c: Config, s: State, s': State, a: History, a': History, w: nat)
    requires WellFormed(c) && Shape(c, s) && Shape(c, s') && Agree(c, a, a', w) && WorkersOk(c, s, a)
    requires s'.dpc == s.dpc && s'.transfered == s.transfered
    requires s'.workers == s.workers[w := s'.workers[w]] && s'.reqSlots == s.reqSlots[w := s'.reqSlots[w]]
    requires s'.mailboxes == s.mailboxes[w := s'.mailboxes[w]]
    requires WorkerFlags(c, w, s'.workers[w], a'.done[w], a'.stage[w], s'.reqSlots[w], s'.transfered[w], s'.mailboxes[w], s'.dpc)
    requires FinishFlags(c, s'.workers[w], a'.fin[w])
    ensures WorkersOk(c, s', a')
  {
    hide WorkerFlags, FinishFlags, ReceiverShape, DispatcherShape;
  }

  lemma OnePhase(s: State, s': State, w: nat)
    requires PhaseOk(s) && w < |s.workers| && |s'.workers| == |s.workers|
    requires s'.workers == s.workers[w := s'.workers[w]] && s'.running == s.running && s'.dpc == s.dpc
    requires !s.workers[w].Finished? && (Arrived(s.workers[w]) ==> Arrived(s'.workers[w]))
    requires s'.workers[w].Finalize? || s'.workers[w].Finished? ==> AllArrived(s)
    ensures PhaseOk(s')
  {
  }

  lemma FlagsOf(c: Config, s: State, a: History, w: nat)
    requires WellFormed(c) && Shape(c, s) && HistoryShape(c, a) && WorkersOk(c, s, a) && w < c.workers
    ensures WorkerFlags(c, w, s.workers[w], a.done[w], a.stage[w], s.reqSlots[w], s.transfered[w], s.mailboxes[w], s.dpc)
    ensures FinishFlags(c, s.workers[w], a.fin[w])
  {
    hide WorkerFlags, FinishFlags;
  }

  /** A worker alone before its request, or arriving at the barrier, moves nothing. */
  lemma LocalKeeps(c: Config, s: State, a: History, w: nat)
    requires WellFormed(c) && Inv(c, s, a) && w < c.workers
    requires s.workers[w].Fill? || (s.workers[w].AtBarrier? && AllArrived(s))
    ensures Inv(c, Work(c, s, w), a)
  {
    hide ReceiverAll, RequestWireOk, ResponseWireOk, DispatcherOk, DispatcherCounts, WorkersOk, PhaseOk;
    FlagsOf(c, s, a, w);
    OneWorker(c, s, Work(c, s, w), a, a, w);
    OnePhase(s, Work(c, s, w), w);
  }

  lemma PublishKeeps(c: Config, s: State, a: History, w: nat) returns (a': History)
    requires WellFormed(c) && Inv(c, s, a) && w < c.workers && s.workers[w].Publish?
    ensures Inv(c, Work(c, s, w), a') && a' == AfterWork(c, s, a, w)
  {
    hide ReceiverAll, RequestWireOk, ResponseWireOk, DispatcherOk, DispatcherCounts, WorkersOk, PhaseOk;
    FlagsOf(c, s, a, w);
    a' := a.(stage := a.stage[w := Own]);
    OneWorker(c, s, Work(c, s, w), a, a', w);
    OnePhase(s, Work(c, s, w), w);
    MoveAway(c, s, a, a', w);
  }

  /** Frames for a worker whose request is neither at a receiver nor on a wire nor landed. */
  lemma MoveAway(c: Config, s: State, a: History, a': History, w: nat)
    requires WellFormed(c) && Inv(c, s, a) && Agree(c, a, a', w) && a'.fin == a.fin
    requires !Remote(a.stage[w]) && !Remote(a'.stage[w])
    requires a'.done[w] + Answered(a'.stage[w]) == a.done[w] + Answered(a.stage[w])
    ensures forall r :: 0 <= r < c.receivers ==> ReceiverAll(c, a', r, s.receivers[r])
    ensures RequestWireOk(c, a', s.reqWire) && ResponseWireOk(c, a', s.respWire)
    ensures DispatcherOk(c, a', s.dpc, s.dPosted, s.dCq, s.respSlots)
    ensures a'.done[w] + Forwarded(a'.stage[w]) == a.done[w] + Forwarded(a.stage[w])
            && a'.done[w] + Collected(a'.stage[w]) == a.done[w] + Collected(a.stage[w])
            && Lands(a'.stage[w]) == Lands(a.stage[w]) ==>
            DispatcherCounts(c, a', s.dispatched, s.received, s.dpc, s.dPosted, s.dCq)
  {
    hide ReceiverAll, RequestWireOk, ResponseWireOk, DispatcherOk, PhaseOk, WorkersOk;
    forall r | 0 <= r < c.receivers ensures ReceiverAll(c, a', r, s.receivers[r]) {
      assert ReceiverAll(c, a, r, s.receivers[r]);
      ReceiverFrame(c, a, a', w, r, s.receivers[r]);
    }
    RequestWireFrame(c, a, a', w, s.reqWire);
    ResponseWireFrame(c, a, a', w, s.respWire);
    DispatcherFrame(c, a, a', w, s.dpc, s.dPosted, s.dCq, s.respSlots);
    DispatcherTotals(c, a, a', w);
  }

  lemma SpinKeeps(c: Config, s: State, a: History, w: nat) returns (a': History)
    requires WellFormed(c) && Inv(c, s, a) && w < c.workers && s.workers[w].Spin?
    ensures Inv(c, Work(c, s, w), a') && a' == AfterWork(c, s, a, w)
  {
    hide ReceiverAll, RequestWireOk, ResponseWireOk, DispatcherOk, DispatcherCounts, WorkersOk, PhaseOk;
    a' := a;
    if s.mailboxes[w] == 1 {
      FlagsOf(c, s, a, w);
      a' := a.(stage := a.stage[w := Home], done := a.done[w := a.done[w] + 1]);
      OneWorker(c, s, Work(c, s, w), a, a', w);
      OnePhase(s, Work(c, s, w), w);
      MoveAway(c, s, a, a', w);
    }
  }

  lemma FinalizeKeeps(c: Config, s: State, a: History, w: nat) returns (a': History)
    requires WellFormed(c) && Inv(c, s, a) && w < c.workers && s.workers[w].Finalize?
    ensures Inv(c, Work(c, s, w), a') && a' == AfterWork(c, s, a, w)
  {
    hide ReceiverAll, RequestWireOk, ResponseWireOk, DispatcherOk, DispatcherCounts, WorkersOk, PhaseOk;
    FlagsOf(c, s, a, w);
    FinalizingPhase(s, w);
    OnePhase(s, Work(c, s, w), w);
    var k := s.workers[w].k;
    a' := a;
    if k < c.receivers {
      a' := a.(fin := a.fin[w := a.fin[w][k := FWire]]);
      FinishPosted(c, s, a, a', w, k);
      OneWorker(c, s, Work(c, s, w), a, a', w);
    } else {
      OneWorker(c, s, Work(c, s, w), a, a, w);
    }
  }

  lemma FinalizingPhase(s: State, w: nat)
    requires PhaseOk(s) && w < |s.workers| && s.workers[w].Finalize?
    ensures AllArrived(s)
  {
  }

  lemma FinishPosted(c: Config, s: State, a: History, a': History, w: nat, k: nat)
    requires WellFormed(c) && Inv(c, s, a) && w < c.workers && k < c.receivers && s.workers[w].Finalize?
    requires a.fin[w][k].FNone? && a' == a.(fin := a.fin[w := a.fin[w][k := FWire]])
    ensures HistoryShape(c, a')
    ensures RequestWireOk(c, a', s.reqWire + multiset{FinishPacket(c, w, k)})
    ensures forall r :: 0 <= r < c.receivers ==> ReceiverAll(c, a', r, s.receivers[r])
    ensures ResponseWireOk(c, a', s.respWire)
    ensures DispatcherOk(c, a', s.dpc, s.dPosted, s.dCq, s.respSlots)
    ensures DispatcherCounts(c, a', s.dispatched, s.received, s.dpc, s.dPosted, s.dCq)
  {
    hide ReceiverAll, RequestWireOk, ResponseWireOk, DispatcherOk, PhaseOk;
    assert WorkerFlags(c, w, s.workers[w], a.done[w], a.stage[w], s.reqSlots[w], s.transfered[w], s.mailboxes[w], s.dpc);
    hide WorkersOk, WorkerFlags;
    forall r | 0 <= r < c.receivers ensures ReceiverAll(c, a', r, s.receivers[r]) {
      assert ReceiverAll(c, a, r, s.receivers[r]);
      ReceiverFrame(c, a, a', w, r, s.receivers[r]);
    }
    ResponseWireFrame(c, a, a', w, s.respWire);
    DispatcherFrame(c, a, a', w, s.dpc, s.dPosted, s.dCq, s.respSlots);
    DispatcherTotals(c, a, a', w);
    FinishOnWire(c, a, a', w, k, s.reqWire);
  }

  lemma FinishOnWire(c: Config, a: History, a': History, w: nat, k: nat, wire: multiset<RequestPacket>)
    requires WellFormed(c) && Agree(c, a, a', w) && k < c.receivers
    requires a' == a.(fin := a.fin[w := a.fin[w][k := FWire]]) && a.fin[w][k].FNone?
    requires RequestWireOk(c, a, wire)
    ensures RequestWireOk(c, a', wire + multiset{FinishPacket(c, w, k)})
  {
    var wire' := wire + multiset{FinishPacket(c, w, k)};
    assert !RequestPacketOk(c, a, FinishPacket(c, w, k));
    assert FinishPacket(c, w, k) !in wire;
    forall p | p in wire' ensures RequestPacketOk(c, a', p) {
      assert p != FinishPacket(c, w, k) ==> RequestPacketOk(c, a, p);
    }
    forall u, r | 0 <= u < c.workers && 0 <= r < c.receivers && a'.fin[u][r].FWire?
      ensures wire'[FinishPacket(c, u, r)] == 1
    {
      assert (u != w || r != k) ==> FinishPacket(c, u, r) != FinishPacket(c, w, k);
    }
  }

  lemma WorkerKeeps(c: Config, s: State, a: History, w: nat) returns (a': History)
    requires WellFormed(c) && Inv(c, s, a) && Enabled(c, s, WorkerStep(w))
    ensures Inv(c, Work(c, s, w), a') && a' == AfterWork(c, s, a, w)
  {
    match s.workers[w]
    case Fill(_) => LocalKeeps(c, s, a, w); a' := a;
    case AtBarrier => LocalKeeps(c, s, a, w); a' := a;
    case Publish(_) => a' := PublishKeeps(c, s, a, w);
    case Spin(_) => a' := SpinKeeps(c, s, a, w);
    case Finalize(_) => a' := FinalizeKeeps(c, s, a, w);
  }
}
