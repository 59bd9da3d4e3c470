/** Steps of the receivers keep the invariant. */
module ProtocolReceiverSteps {
  import opened Sums
  import opened Partition
  import opened Protocol
  import opened ProtocolInvariant
  import opened ProtocolFrames

  /** What a step of receiver r does to the history: at most one message of one worker advances at r. */
  ghost predicate ReceiverMove(c: Config, a: History, a': History, w: nat, r: nat) {
    && Agree(c, a, a', w) && r < c.receivers && a'.done == a.done
    && (a'.stage[w] == a.stage[w] || (AtReceiver(a.stage[w], r) && AtReceiver(a'.stage[w], r)))
    && (forall q :: 0 <= q < c.receivers && q != r ==> a'.fin[w][q] == a.fin[w][q])
    && (a'.fin[w][r] == a.fin[w][r] || (Delivered(a.fin[w][r]) && Delivered(a'.fin[w][r])))
  }

  predicate AtReceiver(st: Stage, r: nat) { (st.InBuf? || st.Busy?) && st.r == r }

  predicate Delivered(f: FinishStage) { f.FBuf? || f.FBusy? || f.FCounted? }

  /** A free receiver takes a message: the completion at the head (SRQ) or the slot under the scan (BUF). */
  lemma PollKeeps(c: Config, a: History, r: nat, rc: Receiver) returns (a': History, w: nat)
    requires WellFormed(c) && HistoryShape(c, a) && r < c.receivers && ReceiverShape(c, rc)
    requires ReceiverAll(c, a, r, rc) && rc.pc.Poll?
    ensures ReceiverMove(c, a, a', w, r) && ReceiverShape(c, Receive(c, rc))
    ensures ReceiverAll(c, a', r, Receive(c, rc)) && a' == AfterReceive(c, a, r, rc)
  {
    var rc' := Receive(c, rc);
    if rc'.pc.Poll? {
      a', w := a, 0;
      forall b | 0 <= b < BufferLength(c) ensures UnreadOk(c, a, r, rc', b) {
        assert UnreadOk(c, a, r, rc, b);
      }
      forall u | 0 <= u < c.workers ensures FinishPlace(c, u, a.fin[u][r], rc') {
        assert FinishPlace(c, u, a.fin[u][r], rc);
      }
      forall u | 0 <= u < c.workers && a.done[u] < c.requests
        ensures ReceiverPlace(c, u, a.done[u], a.stage[u], r, rc')
      {
        assert ReceiverPlace(c, u, a.done[u], a.stage[u], r, rc);
      }
    } else {
      a', w := TakeKeeps(c, a, r, rc);
    }
  }

  /** An unread buffer names the worker whose history points to it. */
  lemma UnreadMessage(c: Config, a: History, r: nat, rc: Receiver, b: nat)
    requires WellFormed(c) && HistoryShape(c, a) && r < c.receivers && ReceiverShape(c, rc) && b < BufferLength(c)
    requires ReceiverAll(c, a, r, rc) && Unread(c, rc, b)
    ensures rc.mem[b].origin < c.workers
    ensures if rc.mem[b].kind == ExpMsg then a.stage[rc.mem[b].origin] == InBuf(r, b)
            else rc.mem[b].kind == FinishedExp && a.fin[rc.mem[b].origin][r] == FBuf(b)
  {
    hide ReceiverPlaces, ReceiverCounts, ReceiverQueuesOk, ReceiverPcOk;
    assert UnreadOk(c, a, r, rc, b);
  }

  lemma TakeKeeps(c: Config, a: History, r: nat, rc: Receiver) returns (a': History, w: nat)
    requires WellFormed(c) && HistoryShape(c, a) && r < c.receivers && ReceiverShape(c, rc)
    requires ReceiverAll(c, a, r, rc) && rc.pc.Poll? && Receive(c, rc).pc.Test?
    ensures ReceiverMove(c, a, a', w, r) && ReceiverShape(c, Receive(c, rc))
    ensures ReceiverAll(c, a', r, Receive(c, rc)) && a' == AfterReceive(c, a, r, rc)
  {
    hide ReceiverCounts, ReceiverPlaces, ReceiverOk;
    var b := Receive(c, rc).pc.b;
    assert c.receiverSrq ==> b in rc.cq;
    UnreadMessage(c, a, r, rc, b);
    w := rc.mem[b].origin;
    a' := if rc.mem[b].kind == ExpMsg then a.(stage := a.stage[w := Busy(r, b)])
          else a.(fin := a.fin[w := a.fin[w][r := FBusy(b)]]);
    TakeCounts(c, a, a', w, r, rc);
    TakePlaces(c, a, a', w, r, rc);
    TakeOk(c, a, a', w, r, rc);
  }

  ghost predicate Taking(c: Config, a: History, a': History, w: nat, r: nat, rc: Receiver)
    requires WellFormed(c) && ReceiverShape(c, rc)
  {
    var rc' := Receive(c, rc);
    && Agree(c, a, a', w) && r < c.receivers && rc.pc.Poll? && rc'.pc.Test? && a'.done == a.done
    && var b := rc'.pc.b;
    && Unread(c, rc, b) && rc.mem[b].origin == w
    && if rc.mem[b].kind == ExpMsg then
         a.stage[w] == InBuf(r, b) && a' == a.(stage := a.stage[w := Busy(r, b)])
       else
         rc.mem[b].kind == FinishedExp
         && a.fin[w][r] == FBuf(b) && a' == a.(fin := a.fin[w := a.fin[w][r := FBusy(b)]])
  }

  lemma TakeCounts(c: Config, a: History, a': History, w: nat, r: nat, rc: Receiver)
    requires WellFormed(c) && ReceiverShape(c, rc) && Taking(c, a, a', w, r, rc)
    requires ReceiverCounts(c, a, r, rc)
    ensures ReceiverCounts(c, a', r, Receive(c, rc))
  {
    hide Total, Hits, CountedSeq, HitSeq, OccupySeq, Unread;
    ReceiverTotals(c, a, a', w, r);
  }

  lemma TakeQueues(c: Config, rc: Receiver)
    requires WellFormed(c) && ReceiverShape(c, rc) && ReceiverQueuesOk(c, rc)
    requires c.receiverSrq && rc.pc.Poll? && rc.cq != []
    ensures ReceiverQueuesOk(c, Receive(c, rc)) && rc.cq[0] !in rc.cq[1..]
  {
    assert multiset(rc.posted) + multiset(rc.cq) + multiset(HeldByReceiver(rc.pc)) ==
           multiset(rc.cq) + multiset([]) + multiset(rc.posted);
    MoveHead(rc.cq, [], rc.posted);
    assert multiset(rc.posted) + multiset(rc.cq[1..]) + multiset([rc.cq[0]]) ==
           multiset(rc.cq[1..]) + multiset([] + [rc.cq[0]]) + multiset(rc.posted);
  }

  lemma TakeOk(c: Config, a: History, a': History, w: nat, r: nat, rc: Receiver)
    requires WellFormed(c) && ReceiverShape(c, rc) && Taking(c, a, a', w, r, rc)
    requires ReceiverOk(c, a, r, rc) && ReceiverShape(c, Receive(c, rc))
    ensures ReceiverOk(c, a', r, Receive(c, rc))
  {
    var rc' := Receive(c, rc);
    var b := rc'.pc.b;
    hide Distinct;
    if c.receiverSrq {
      TakeQueues(c, rc);
    }
    assert UnreadOk(c, a, r, rc, b);
    forall d | 0 <= d < BufferLength(c) ensures UnreadOk(c, a', r, rc', d) {
      assert UnreadOk(c, a, r, rc, d);
    }
  }

  lemma TakePlaces(c: Config, a: History, a': History, w: nat, r: nat, rc: Receiver)
    requires WellFormed(c) && ReceiverShape(c, rc) && Taking(c, a, a', w, r, rc)
    requires ReceiverPlaces(c, a, r, rc)
    ensures ReceiverShape(c, Receive(c, rc)) && ReceiverPlaces(c, a', r, Receive(c, rc))
  {
    var rc' := Receive(c, rc);
    assert c.receiverSrq ==> rc.cq == [rc'.pc.b] + rc.cq[1..];
    assert forall d :: d in rc'.cq ==> d in rc.cq;
    forall u | 0 <= u < c.workers ensures FinishPlace(c, u, a'.fin[u][r], rc') {
      assert FinishPlace(c, u, a.fin[u][r], rc);
    }
    forall u | 0 <= u < c.workers && a'.done[u] < c.requests
      ensures ReceiverPlace(c, u, a'.done[u], a'.stage[u], r, rc')
    {
      assert ReceiverPlace(c, u, a.done[u], a.stage[u], r, rc);
    }
  }

  /** Looking at the type of a request, or giving the slot of a counted finish message back. */
  lemma QuietKeeps(c: Config, a: History, r: nat, rc: Receiver)
    requires WellFormed(c) && HistoryShape(c, a) && r < c.receivers && ReceiverShape(c, rc)
    requires ReceiverAll(c, a, r, rc)
    requires (rc.pc.Test? && rc.mem[rc.pc.b].kind == ExpMsg) || rc.pc.Release? || rc.pc.ClearFinish?
    ensures ReceiverShape(c, Receive(c, rc)) && ReceiverAll(c, a, r, Receive(c, rc))
  {
    var rc' := Receive(c, rc);
    forall b | 0 <= b < BufferLength(c) ensures UnreadOk(c, a, r, rc', b) {
      assert UnreadOk(c, a, r, rc, b);
    }
    forall u | 0 <= u < c.workers ensures FinishPlace(c, u, a.fin[u][r], rc') {
      assert FinishPlace(c, u, a.fin[u][r], rc);
    }
    forall u | 0 <= u < c.workers && a.done[u] < c.requests
      ensures ReceiverPlace(c, u, a.done[u], a.stage[u], r, rc')
    {
      assert ReceiverPlace(c, u, a.done[u], a.stage[u], r, rc);
    }
  }

  /** Writing the response does not disturb a response another worker is still owed. */
  lemma BuildKeeps(c: Config, a: History, r: nat, rc: Receiver)
    requires WellFormed(c) && HistoryShape(c, a) && r < c.receivers && ReceiverShape(c, rc)
    requires ReceiverAll(c, a, r, rc) && rc.pc.Build?
    ensures ReceiverShape(c, Receive(c, rc)) && ReceiverAll(c, a, r, Receive(c, rc))
  {
    var rc' := Receive(c, rc);
    var w := rc.mem[rc.pc.b].origin;
    forall b | 0 <= b < BufferLength(c) ensures UnreadOk(c, a, r, rc', b) {
      assert UnreadOk(c, a, r, rc, b);
    }
    forall u | 0 <= u < c.workers ensures FinishPlace(c, u, a.fin[u][r], rc') {
      assert FinishPlace(c, u, a.fin[u][r], rc);
    }
    forall u | 0 <= u < c.workers && a.done[u] < c.requests
      ensures ReceiverPlace(c, u, a.done[u], a.stage[u], r, rc')
    {
      assert ReceiverPlace(c, u, a.done[u], a.stage[u], r, rc);
      if u != w {
        ResponseIdsDiffer(c, u, a.done[u], w, a.done[w]);
      }
    }
  }

  /** The response goes out; from now on the request counts as answered. */
  lemma TransferKeeps(c: Config, a: History, r: nat, rc: Receiver) returns (a': History, w: nat)
    requires WellFormed(c) && HistoryShape(c, a) && r < c.receivers && ReceiverShape(c, rc)
    requires ReceiverAll(c, a, r, rc) && rc.pc.Transfer?
    ensures w == rc.mem[rc.pc.b].origin < c.workers && a.stage[w] == Busy(r, rc.pc.b) && r == Target(c, w, a.done[w])
    ensures a' == a.(stage := a.stage[w := RespWire(r)]) && HistoryShape(c, a')
    ensures ReceiverShape(c, Receive(c, rc)) && ReceiverAll(c, a', r, Receive(c, rc))
    ensures a' == AfterReceive(c, a, r, rc)
    ensures Posts(rc, r) == multiset{ReplyPacket(c, w, a.done[w])}
  {
    hide ReceiverCounts, ReceiverPlaces;
    w := rc.mem[rc.pc.b].origin;
    a' := a.(stage := a.stage[w := RespWire(r)]);
    AtTarget(c, a, r, rc, w);
    TransferCounts(c, a, a', w, r, rc);
    TransferPlaces(c, a, a', w, r, rc);
    forall b | 0 <= b < BufferLength(c) ensures UnreadOk(c, a', r, Receive(c, rc), b) {
      assert UnreadOk(c, a, r, rc, b);
    }
  }

  lemma AtTarget(c: Config, a: History, r: nat, rc: Receiver, w: nat)
    requires WellFormed(c) && HistoryShape(c, a) && r < c.receivers && ReceiverShape(c, rc)
    requires ReceiverPlaces(c, a, r, rc) && w < c.workers && a.stage[w].Busy? && a.stage[w].r == r
    ensures r == Target(c, w, a.done[w])
  {
    assert ReceiverPlace(c, w, a.done[w], a.stage[w], r, rc);
  }

  ghost predicate Transferring(c: Config, a: History, a': History, w: nat, r: nat, rc: Receiver)
    requires WellFormed(c) && ReceiverShape(c, rc)
  {
    && Agree(c, a, a', w) && r < c.receivers && rc.pc.Transfer? && a.stage[w] == Busy(r, rc.pc.b)
    && a' == a.(stage := a.stage[w := RespWire(r)]) && r == Target(c, w, a.done[w])
    && rc.mem[rc.pc.b].origin == w
  }

  lemma TransferCounts(c: Config, a: History, a': History, w: nat, r: nat, rc: Receiver)
    requires WellFormed(c) && ReceiverShape(c, rc) && Transferring(c, a, a', w, r, rc)
    requires ReceiverCounts(c, a, r, rc)
    ensures ReceiverCounts(c, a', r, Receive(c, rc))
  {
    hide Total, CountedSeq, HitSeq, OccupySeq;
    ReceiverTotals(c, a, a', w, r);
    assert a.fin[w][r].FNone?;
  }

  lemma TransferPlaces(c: Config, a: History, a': History, w: nat, r: nat, rc: Receiver)
    requires WellFormed(c) && ReceiverShape(c, rc) && Transferring(c, a, a', w, r, rc)
    requires ReceiverPlaces(c, a, r, rc) && Answers(c, rc, w, a.done[w])
    ensures ReceiverShape(c, Receive(c, rc)) && ReceiverPlaces(c, a', r, Receive(c, rc))
  {
    var rc' := Receive(c, rc);
    forall u | 0 <= u < c.workers ensures FinishPlace(c, u, a'.fin[u][r], rc') {
      assert FinishPlace(c, u, a.fin[u][r], rc);
    }
    forall u | 0 <= u < c.workers && a'.done[u] < c.requests
      ensures ReceiverPlace(c, u, a'.done[u], a'.stage[u], r, rc')
    {
      assert ReceiverPlace(c, u, a.done[u], a.stage[u], r, rc);
    }
  }

  /** The answered buffer goes back to the shared queue. */
  lemma RefillKeeps(c: Config, a: History, r: nat, rc: Receiver)
    requires WellFormed(c) && HistoryShape(c, a) && r < c.receivers && ReceiverShape(c, rc)
    requires ReceiverAll(c, a, r, rc) && rc.pc.Refill?
    ensures ReceiverShape(c, Receive(c, rc)) && ReceiverAll(c, a, r, Receive(c, rc))
  {
    var rc' := Receive(c, rc);
    assert ReceiverQueuesOk(c, rc') by {
      RefillQueues(c, rc);
    }
    hide ReceiverCounts, Distinct, ReceiverQueuesOk;
    assert ReceiverCounts(c, a, r, rc') by {
      RefillCounts(c, a, r, rc);
    }
    forall b | 0 <= b < BufferLength(c) ensures UnreadOk(c, a, r, rc', b) {
      assert UnreadOk(c, a, r, rc, b);
    }
    forall u | 0 <= u < c.workers ensures FinishPlace(c, u, a.fin[u][r], rc') {
      assert FinishPlace(c, u, a.fin[u][r], rc);
    }
    forall u | 0 <= u < c.workers && a.done[u] < c.requests
      ensures ReceiverPlace(c, u, a.done[u], a.stage[u], r, rc')
    {
      assert ReceiverPlace(c, u, a.done[u], a.stage[u], r, rc);
    }
  }

  lemma RefillQueues(c: Config, rc: Receiver)
    requires WellFormed(c) && ReceiverShape(c, rc) && ReceiverQueuesOk(c, rc) && rc.pc.Refill?
    ensures ReceiverQueuesOk(c, Receive(c, rc))
  {
    var rc' := Receive(c, rc);
    assert multiset(rc'.posted) + multiset(rc'.cq) + multiset(HeldByReceiver(rc'.pc)) ==
           multiset(rc.posted) + multiset(rc.cq) + multiset(HeldByReceiver(rc.pc));
  }

  lemma RefillCounts(c: Config, a: History, r: nat, rc: Receiver)
    requires WellFormed(c) && HistoryShape(c, a) && r < c.receivers && ReceiverShape(c, rc)
    requires ReceiverCounts(c, a, r, rc) && rc.pc.Refill?
    ensures ReceiverCounts(c, a, r, Receive(c, rc))
  {
  }

  /** Counting a finish message; the last one ends the receiver. */
  lemma CountKeeps(c: Config, a: History, r: nat, rc: Receiver) returns (a': History, w: nat)
    requires WellFormed(c) && HistoryShape(c, a) && r < c.receivers && ReceiverShape(c, rc)
    requires ReceiverAll(c, a, r, rc) && rc.pc.Test? && rc.mem[rc.pc.b].kind != ExpMsg
    ensures ReceiverMove(c, a, a', w, r) && ReceiverShape(c, Receive(c, rc))
    ensures ReceiverAll(c, a', r, Receive(c, rc)) && a' == AfterReceive(c, a, r, rc)
  {
    hide ReceiverCounts, ReceiverPlaces, Distinct;
    w := rc.mem[rc.pc.b].origin;
    a' := a.(fin := a.fin[w := a.fin[w][r := FCounted]]);
    CountTotals(c, a, a', w, r, rc);
    CountPlaces(c, a, a', w, r, rc);
    assert Distinct(multiset(rc.posted) + multiset(rc.cq) + multiset(HeldByReceiver(rc.pc))) ==>
           Distinct(multiset(rc.posted) + multiset(rc.cq)) by {
      FewerDistinct(multiset(rc.posted) + multiset(rc.cq), multiset(HeldByReceiver(rc.pc)));
    }
    assert multiset(rc.posted) + multiset(rc.cq) + multiset{} == multiset(rc.posted) + multiset(rc.cq);
    forall b | 0 <= b < BufferLength(c) ensures UnreadOk(c, a', r, Receive(c, rc), b) {
      assert UnreadOk(c, a, r, rc, b);
    }
  }

  lemma FewerDistinct(ms: multiset<nat>, more: multiset<nat>)
    ensures Distinct(ms + more) ==> Distinct(ms)
  {
    if Distinct(ms + more) {
      forall x | x in ms ensures ms[x] == 1 {
        assert x in ms + more;
      }
    }
  }

  ghost predicate Counting(c: Config, a: History, a': History, w: nat, r: nat, rc: Receiver)
    requires WellFormed(c) && ReceiverShape(c, rc)
  {
    && Agree(c, a, a', w) && r < c.receivers && rc.pc.Test? && a.fin[w][r] == FBusy(rc.pc.b)
    && rc.mem[rc.pc.b] == FinishMessage(w)
    && a' == a.(fin := a.fin[w := a.fin[w][r := FCounted]])
  }

  lemma CountTotals(c: Config, a: History, a': History, w: nat, r: nat, rc: Receiver)
    requires WellFormed(c) && ReceiverShape(c, rc) && Counting(c, a, a', w, r, rc)
    requires ReceiverCounts(c, a, r, rc)
    ensures ReceiverCounts(c, a', r, Receive(c, rc))
    ensures Receive(c, rc).pc.Returned? ==> forall u :: 0 <= u < c.workers ==> a'.fin[u][r].FCounted?
  {
    ReceiverTotals(c, a, a', w, r);
    TotalFull(CountedSeq(c, a', r));
    if Receive(c, rc).pc.Returned? {
      forall u | 0 <= u < c.workers ensures a'.fin[u][r].FCounted? {
        assert CountedSeq(c, a', r)[u] == 1;
      }
    }
  }

  lemma CountPlaces(c: Config, a: History, a': History, w: nat, r: nat, rc: Receiver)
    requires WellFormed(c) && ReceiverShape(c, rc) && Counting(c, a, a', w, r, rc)
    requires Receive(c, rc).pc.Returned? ==> forall u :: 0 <= u < c.workers ==> a'.fin[u][r].FCounted?
    requires ReceiverPlaces(c, a, r, rc)
    ensures ReceiverShape(c, Receive(c, rc)) && ReceiverPlaces(c, a', r, Receive(c, rc))
  {
    var rc' := Receive(c, rc);
    forall u | 0 <= u < c.workers ensures FinishPlace(c, u, a'.fin[u][r], rc') {
      assert FinishPlace(c, u, a.fin[u][r], rc);
    }
    forall u | 0 <= u < c.workers && a'.done[u] < c.requests
      ensures ReceiverPlace(c, u, a'.done[u], a'.stage[u], r, rc')
    {
      assert ReceiverPlace(c, u, a.done[u], a.stage[u], r, rc);
      assert a'.fin[u][r].FCounted? ==> a.stage[u].Home?;
    }
  }

  /** The rest of the system does not notice: the worker still waits, the other receivers are not involved. */
  lemma Elsewhere(c: Config, s: State, a: History, a': History, w: nat, r: nat)
    requires WellFormed(c) && Inv(c, s, a) && Agree(c, a, a', w) && r < c.receivers && a'.done == a.done
    requires a'.stage[w] == a.stage[w] || (AtReceiver(a.stage[w], r) && AtReceiver(a'.stage[w], r))
             || (AtReceiver(a.stage[w], r) && a'.stage[w] == RespWire(r) && r == Target(c, w, a.done[w]))
    requires forall q :: 0 <= q < c.receivers && q != r ==> a'.fin[w][q] == a.fin[w][q]
    requires a'.fin[w][r] == a.fin[w][r] || (Delivered(a.fin[w][r]) && Delivered(a'.fin[w][r]))
    ensures WorkersOk(c, s, a')
    ensures RequestWireOk(c, a', s.reqWire)
    ensures DispatcherOk(c, a', s.dpc, s.dPosted, s.dCq, s.respSlots)
    ensures DispatcherCounts(c, a', s.dispatched, s.received, s.dpc, s.dPosted, s.dCq)
    ensures forall q :: 0 <= q < c.receivers && q != r ==> ReceiverAll(c, a', q, s.receivers[q])
  {
    hide ReceiverAll, RequestWireOk, ResponseWireOk, DispatcherOk, PhaseOk, DispatcherCounts, WorkersOk;
    if a'.stage[w] == a.stage[w] && a'.fin[w][r] == a.fin[w][r] {
      assert a'.fin[w] == a.fin[w];
      assert a' == a;
    } else {
      assert a'.stage[w] == a.stage[w] ==> a.stage[w].Home?;
      ElsewhereFrames(c, s, a, a', w, r);
      WorkersFrame(c, s, a, a', w);
    }
  }

  lemma ElsewhereFrames(c: Config, s: State, a: History, a': History, w: nat, r: nat)
    requires WellFormed(c) && Inv(c, s, a) && Agree(c, a, a', w) && r < c.receivers && a'.done == a.done
    requires (AtReceiver(a.stage[w], r) && AtReceiver(a'.stage[w], r))
             || (AtReceiver(a.stage[w], r) && a'.stage[w] == RespWire(r) && r == Target(c, w, a.done[w]))
             || (a.stage[w].Home? && a'.stage[w].Home?)
    requires forall q :: 0 <= q < c.receivers && q != r ==> a'.fin[w][q] == a.fin[w][q]
    requires a'.fin[w][r] == a.fin[w][r] || (Delivered(a.fin[w][r]) && Delivered(a'.fin[w][r]))
    ensures RequestWireOk(c, a', s.reqWire)
    ensures DispatcherOk(c, a', s.dpc, s.dPosted, s.dCq, s.respSlots)
    ensures DispatcherCounts(c, a', s.dispatched, s.received, s.dpc, s.dPosted, s.dCq)
    ensures forall q :: 0 <= q < c.receivers && q != r ==> ReceiverAll(c, a', q, s.receivers[q])
  {
    hide ReceiverAll, RequestWireOk, ResponseWireOk, DispatcherOk, PhaseOk, WorkersOk, DispatcherCounts;
    RequestWireFrame(c, a, a', w, s.reqWire);
    DispatcherFrame(c, a, a', w, s.dpc, s.dPosted, s.dCq, s.respSlots);
    DispatcherCountsFrame(c, a, a', w, s.dispatched, s.received, s.dpc, s.dPosted, s.dCq);
    forall q | 0 <= q < c.receivers && q != r ensures ReceiverAll(c, a', q, s.receivers[q]) {
      assert ReceiverAll(c, a, q, s.receivers[q]);
      assert a'.stage[w].RespWire? ==> Hits(c, w, q, a.done[w] + 1) == Hits(c, w, q, a.done[w]);
      ReceiverFrame(c, a, a', w, q, s.receivers[q]);
    }
  }

  lemma ResponsePosted(c: Config, a: History, a': History, w: nat, r: nat, wire: multiset<ResponsePacket>)
    requires WellFormed(c) && Agree(c, a, a', w) && r < c.receivers
    requires a.stage[w].Busy? && a.stage[w].r == r == Target(c, w, a.done[w])
    requires a' == a.(stage := a.stage[w := RespWire(r)])
    requires ResponseWireOk(c, a, wire)
    ensures ResponseWireOk(c, a', wire + multiset{ReplyPacket(c, w, a.done[w])})
  {
    var p := ReplyPacket(c, w, a.done[w]);
    assert !ResponsePacketOk(c, a, p);
    assert p !in wire;
    forall q | q in wire + multiset{p} ensures ResponsePacketOk(c, a', q) {
      assert q != p ==> ResponsePacketOk(c, a, q);
    }
    forall u | 0 <= u < c.workers && a'.stage[u].RespWire?
      ensures (wire + multiset{p})[ReplyPacket(c, u, a'.done[u])] == 1
    {
      assert u != w ==> ReplyPacket(c, u, a.done[u]) != p;
    }
  }

  lemma ResponsesFrame(c: Config, a: History, a': History, w: nat, r: nat, wire: multiset<ResponsePacket>)
    requires WellFormed(c) && ReceiverMove(c, a, a', w, r) && ResponseWireOk(c, a, wire)
    ensures ResponseWireOk(c, a', wire)
  {
    if a'.stage[w] == a.stage[w] {
      assert a'.stage == a.stage;
      forall p | p in wire ensures ResponsePacketOk(c, a', p) {
        assert ResponsePacketOk(c, a, p);
      }
    } else {
      ResponseWireFrame(c, a, a', w, wire);
    }
  }

  lemma ReceiverKeeps(c: Config, s: State, a: History, r: nat, s': State) returns (a': History)
    requires WellFormed(c) && Shape(c, s) && Enabled(c, s, ReceiverStep(r))
    requires s' == Apply(c, s, ReceiverStep(r)) && Inv(c, s, a)
    ensures Inv(c, s', a') && a' == AfterReceive(c, a, r, s.receivers[r])
  {
    hide ReceiverAll, RequestWireOk, ResponseWireOk, DispatcherOk, WorkersOk, DispatcherCounts, ReceiverShape, Receive,
         ReceiverMove;
    var rc := s.receivers[r];
    assert ReceiverAll(c, a, r, rc);
    var w: nat;
    if rc.pc.Transfer? {
      a', w := TransferKeeps(c, a, r, rc);
      ResponsePosted(c, a, a', w, r, s.respWire);
      Elsewhere(c, s, a, a', w, r);
    } else {
      a', w := NoPostKeeps(c, a, r, rc);
      ResponsesFrame(c, a, a', w, r, s.respWire);
      assert s.respWire + Posts(rc, r) == s.respWire;
      MoveElsewhere(c, s, a, a', w, r);
    }
    WorkersSame(c, s, s', a');
  }

  lemma MoveElsewhere(c: Config, s: State, a: History, a': History, w: nat, r: nat)
    requires WellFormed(c) && Inv(c, s, a) && ReceiverMove(c, a, a', w, r)
    ensures HistoryShape(c, a') && WorkersOk(c, s, a')
    ensures RequestWireOk(c, a', s.reqWire)
    ensures DispatcherOk(c, a', s.dpc, s.dPosted, s.dCq, s.respSlots)
    ensures DispatcherCounts(c, a', s.dispatched, s.received, s.dpc, s.dPosted, s.dCq)
    ensures forall q :: 0 <= q < c.receivers && q != r ==> ReceiverAll(c, a', q, s.receivers[q])
  {
    hide Inv;
    Elsewhere(c, s, a, a', w, r);
  }

  lemma NoPostKeeps(c: Config, a: History, r: nat, rc: Receiver) returns (a': History, w: nat)
    requires WellFormed(c) && HistoryShape(c, a) && r < c.receivers && ReceiverShape(c, rc)
    requires ReceiverAll(c, a, r, rc) && !rc.pc.Transfer? && !rc.pc.Returned?
    ensures ReceiverMove(c, a, a', w, r) && ReceiverShape(c, Receive(c, rc))
    ensures ReceiverAll(c, a', r, Receive(c, rc)) && a' == AfterReceive(c, a, r, rc)
  {
    hide ReceiverAll, Receive;
    a', w := a, 0;
    match rc.pc
    case Poll(_) => a', w := PollKeeps(c, a, r, rc);
    case Test(b) =>
      if rc.mem[b].kind == ExpMsg {
        QuietKeeps(c, a, r, rc);
      } else {
        a', w := CountKeeps(c, a, r, rc);
      }
    case Build(_) => BuildKeeps(c, a, r, rc);
    case Release(_) => QuietKeeps(c, a, r, rc);
    case Refill(_) => RefillKeeps(c, a, r, rc);
    case ClearFinish(_) => QuietKeeps(c, a, r, rc);
  }
}
