/** What holds in every state of every run of the dispatcher protocol. */
module ProtocolSafety {
  import opened Sums
  import opened Partition
  import opened Protocol
  import opened ProtocolInvariant
  import opened ProtocolFrames
  import opened ProtocolWorkerSteps
  import opened ProtocolReceiverSteps
  import opened ProtocolDispatcherSteps
  import opened ProtocolNetworkSteps

  ghost predicate Next(c: Config, s: State, step: Step, s': State)
    requires WellFormed(c)
  {
    Shape(c, s) && Enabled(c, s, step) && s' == Apply(c, s, step)
  }

  /** States and steps of a run from the initial state, in any interleaving. */
  ghost predicate IsRun(c: Config, tr: seq<State>, steps: seq<Step>)
    requires WellFormed(c)
  {
    && |tr| == |steps| + 1 && tr[0] == Init(c)
    && forall n :: 0 <= n < |steps| ==> Next(c, tr[n], steps[n], tr[n + 1])
  }

  function InitHistory(c: Config): History {
    History(seq(c.workers, _ => 0), seq(c.workers, _ => Home), seq(c.workers, _ => seq(c.receivers, _ => FNone)))
  }

  lemma {:induction false} IotaDistinct(n: nat)
    ensures Distinct(multiset(Iota(n))) && |Iota(n)| == n
    ensures forall k :: k in Iota(n) ==> k < n
  {
    if n > 0 {
      IotaDistinct(n - 1);
      assert Iota(n) == Iota(n - 1) + [n - 1];
    }
  }

  lemma InitReceiverOk(c: Config, r: nat)
    requires WellFormed(c) && r < c.receivers && HistoryShape(c, InitHistory(c))
    ensures ReceiverShape(c, InitReceiver(c)) && ReceiverAll(c, InitHistory(c), r, InitReceiver(c))
  {
    var a := InitHistory(c);
    var rc := InitReceiver(c);
    IotaDistinct(BufferLength(c));
    assert multiset(rc.posted) + multiset(rc.cq) + multiset(HeldByReceiver(rc.pc)) == multiset(rc.posted);
    TotalZero(CountedSeq(c, a, r));
    TotalZero(HitSeq(c, a, r));
    TotalZero(OccupySeq(c, a, r));
    assert !rc.pc.Returned? && rc.finished != c.workers;
  }

  lemma InitOk(c: Config)
    requires WellFormed(c)
    ensures Inv(c, Init(c), InitHistory(c))
  {
    var a := InitHistory(c);
    var s := Init(c);
    forall r | 0 <= r < c.receivers ensures ReceiverShape(c, s.receivers[r]) && ReceiverAll(c, a, r, s.receivers[r]) {
      InitReceiverOk(c, r);
    }
    hide ReceiverAll, ReceiverShape;
    InitDispatcherOk(c);
  }

  lemma InitDispatcherOk(c: Config)
    requires WellFormed(c) && HistoryShape(c, InitHistory(c))
    ensures var s := Init(c); var a := InitHistory(c);
            DispatcherOk(c, a, s.dpc, s.dPosted, s.dCq, s.respSlots)
            && DispatcherCounts(c, a, s.dispatched, s.received, s.dpc, s.dPosted, s.dCq)
  {
    var s := Init(c);
    var a := InitHistory(c);
    IotaDistinct(c.workers);
    assert multiset(s.dPosted) + multiset(s.dCq) + multiset(HeldBuffers(s.dpc)) == multiset(s.dPosted);
    TotalZero(ForwardedSeq(c, a));
    TotalZero(CollectedSeq(c, a));
    TotalZero(LandSeq(c, a));
  }

  lemma StepFits(c: Config, s: State, a: History, step: Step, s': State)
    requires WellFormed(c) && EnoughCredit(c) && Next(c, s, step, s') && Inv(c, s, a)
    ensures Fits(c, s, step)
  {
    hide ResponseWireOk, DispatcherOk, DispatcherCounts, WorkersOk, PhaseOk, ReceiverAll, Apply;
    if step.DeliverRequest? && c.receiverSrq {
      var p := step.request;
      assert RequestPacketOk(c, a, p);
      MessageFits(c, a, p, s.receivers[p.to]);
    }
  }

  lemma StepKeeps(c: Config, s: State, a: History, step: Step, s': State) returns (a': History)
    requires WellFormed(c) && Next(c, s, step, s') && Fits(c, s, step) && Inv(c, s, a)
    ensures Inv(c, s', a') && a' == HistoryAfter(c, s, a, step)
  {
    hide ReceiverAll, RequestWireOk, ResponseWireOk, DispatcherOk, DispatcherCounts, Work, Dispatch, Receive;
    match step
    case WorkerStep(w) => a' := WorkerKeeps(c, s, a, w);
    case DispatcherStep(stop) => a' := DispatcherKeeps(c, s, a, stop);
    case ReceiverStep(r) => a' := ReceiverKeeps(c, s, a, r, s');
    case MainStep => a' := a; WorkersSame(c, s, s', a);
    case DeliverRequest(p) => a' := RequestArrives(c, s, a, p, s');
    case DeliverResponse(p) => a' := ResponseArrives(c, s, a, p, s');
  }

  /** The invariant holds after every number of steps of every run. */
  lemma {:induction false} RunKeeps(c: Config, tr: seq<State>, steps: seq<Step>, n: nat) returns (a: History)
    requires WellFormed(c) && EnoughCredit(c) && IsRun(c, tr, steps) && n <= |steps|
    ensures Inv(c, tr[n], a)
  {
    hide Inv;
    if n == 0 {
      InitOk(c);
      a := InitHistory(c);
    } else {
      var b := RunKeeps(c, tr, steps, n - 1);
      assert Next(c, tr[n - 1], steps[n - 1], tr[n]);
      StepFits(c, tr[n - 1], b, steps[n - 1], tr[n]);
      a := StepKeeps(c, tr[n - 1], b, steps[n - 1], tr[n]);
    }
  }

  lemma RunLength(c: Config, tr: seq<State>, steps: seq<Step>)
    requires WellFormed(c) && IsRun(c, tr, steps)
    ensures |tr| == |steps| + 1
  {
  }

  /** No forwarded slot is answered twice, no mailbox flip fails, every message finds room, none is overwritten. */
  lemma NoErrors(c: Config, tr: seq<State>, steps: seq<Step>, n: nat)
    requires WellFormed(c) && EnoughCredit(c) && IsRun(c, tr, steps) && n <= |steps|
    ensures tr[n].errors == {}
  {
    var a := RunKeeps(c, tr, steps, n);
  }

  /** There is a place for a message on its way to a receiver. */
  ghost predicate RequestFits(c: Config, s: State, p: RequestPacket)
    requires WellFormed(c) && Shape(c, s)
  {
    && p.to < c.receivers
    && var rc := s.receivers[p.to];
    && if c.receiverSrq then rc.posted != []
       else
         var b := SlotIndex(c.reqBases[p.to], MESSAGE_SIZE, p.addr);
         0 <= b < BufferLength(c) && rc.mem[b].kind == EMPTY
  }

  /** There is a place for a response on its way to the dispatcher. */
  ghost predicate ResponseFits(c: Config, s: State, p: ResponsePacket)
    requires WellFormed(c) && Shape(c, s)
  {
    && p.to == c.dispatcherId
    && if c.dispatcherSrq then s.dPosted != [] && s.dPosted[0] < c.workers
       else
         var k := SlotIndex(c.respBase, c.respSize, p.addr);
         0 <= k < c.workers && s.respSlots[k].transferFlag != 1
  }

  /** What the dispatcher is about to do is possible: the owner of a response waits for it, a mailbox is empty. */
  ghost predicate DispatcherFits(c: Config, s: State)
    requires WellFormed(c) && Shape(c, s)
  {
    && (s.dpc.FlipMailbox? ==> s.mailboxes[s.dpc.w] == 0)
    && (s.dpc.Handle? && s.dpc.j < |s.dpc.batch| ==>
          var k := s.dpc.batch[s.dpc.j];
          k < c.workers && 0 <= OwnerOf(c, s.respSlots[k], k) < c.workers && s.transfered[OwnerOf(c, s.respSlots[k], k)])
  }

  /** The same without asking the error set: whatever step comes next, it finds what the code takes for granted. */
  lemma EverythingFits(c: Config, tr: seq<State>, steps: seq<Step>, n: nat)
    requires WellFormed(c) && EnoughCredit(c) && IsRun(c, tr, steps) && n <= |steps|
    ensures Shape(c, tr[n]) && DispatcherFits(c, tr[n])
    ensures forall p :: p in tr[n].reqWire ==> RequestFits(c, tr[n], p)
    ensures forall p :: p in tr[n].respWire ==> ResponseFits(c, tr[n], p)
  {
    hide IsRun, EnoughCredit, RequestFits, ResponseFits, DispatcherFits, ReceiverAll, RequestWireOk, ResponseWireOk,
         DispatcherOk, DispatcherCounts, WorkersOk, PhaseOk, Apply;
    var a := RunKeeps(c, tr, steps, n);
    RunLength(c, tr, steps);
    var s := tr[n];
    forall p | p in s.reqWire ensures RequestFits(c, s, p) {
      StepClean(c, s, a, DeliverRequest(p));
      RequestFitsIf(c, s, p);
    }
    forall p | p in s.respWire ensures ResponseFits(c, s, p) {
      StepClean(c, s, a, DeliverResponse(p));
      ResponseFitsIf(c, s, p);
    }
    if !s.dpc.Halted? {
      StepClean(c, s, a, DispatcherStep(false));
    }
    DispatcherFitsIf(c, s);
  }

  lemma StepClean(c: Config, s: State, a: History, step: Step)
    requires WellFormed(c) && EnoughCredit(c) && Shape(c, s) && Enabled(c, s, step) && Inv(c, s, a)
    ensures s.errors == {} && Apply(c, s, step).errors == {}
  {
    hide EnoughCredit, ReceiverAll, RequestWireOk, ResponseWireOk, DispatcherOk, DispatcherCounts, WorkersOk, PhaseOk, Apply;
    StepFits(c, s, a, step, Apply(c, s, step));
    var a' := StepKeeps(c, s, a, step, Apply(c, s, step));
  }

  lemma RequestFitsIf(c: Config, s: State, p: RequestPacket)
    requires WellFormed(c) && Shape(c, s) && p in s.reqWire && Apply(c, s, DeliverRequest(p)).errors == {}
    ensures RequestFits(c, s, p)
  {
    hide BufferLength, SlotIndex;
    var s' := Apply(c, s, DeliverRequest(p));
    assert BadAddress !in s'.errors && ReceiverNotReady !in s'.errors && Overwritten !in s'.errors;
  }

  lemma ResponseFitsIf(c: Config, s: State, p: ResponsePacket)
    requires WellFormed(c) && Shape(c, s) && p in s.respWire && Apply(c, s, DeliverResponse(p)).errors == {}
    ensures ResponseFits(c, s, p)
  {
    hide BufferLength, SlotIndex;
    var s' := Apply(c, s, DeliverResponse(p));
    assert BadAddress !in s'.errors && ReceiverNotReady !in s'.errors && Overwritten !in s'.errors;
  }

  lemma DispatcherFitsIf(c: Config, s: State)
    requires WellFormed(c) && Shape(c, s) && (!s.dpc.Halted? ==> Apply(c, s, DispatcherStep(false)).errors == {})
    ensures DispatcherFits(c, s)
  {
    hide BufferLength, SlotIndex;
    if !s.dpc.Halted? {
      var s' := Apply(c, s, DispatcherStep(false));
      assert NotTransfered !in s'.errors && CasFailed !in s'.errors;
    }
    if s.dpc.Handle? && s.dpc.j < |s.dpc.batch| {
      assert s.dpc.batch[s.dpc.j] in s.dpc.batch;
    }
  }

  /* ---- each request is in exactly one place ---- */

  datatype Place =
    | InOwnSlot | OnRequestWire
    | InReceiveBuffer(r: nat, b: nat) | InReceiversHands(r: nat)
    | OnResponseWire | InResponseSlot(k: nat)
    | InDispatchersHands | InMailbox

  /** Is worker w's request, or the answer to it, at this place of the state? Read off the shared memory alone. */
  ghost predicate At(c: Config, s: State, w: nat, place: Place)
    requires WellFormed(c) && Shape(c, s) && w < c.workers
  {
    match place
    case InOwnSlot =>
      s.reqSlots[w].kind == ExpMsg && !s.transfered[w] && !(s.dpc.EmptySlot? && s.dpc.w == w)
    case OnRequestWire =>
      exists p :: p in s.reqWire && p.body.kind == ExpMsg && p.body.origin == w
    case InReceiveBuffer(r, b) =>
      r < c.receivers && b < BufferLength(c) && Unread(c, s.receivers[r], b)
      && s.receivers[r].mem[b].kind == ExpMsg && s.receivers[r].mem[b].origin == w
    case InReceiversHands(r) =>
      && r < c.receivers
      && var rc := s.receivers[r];
      && (rc.pc.Test? || rc.pc.Build? || rc.pc.Release? || rc.pc.Transfer?)
      && rc.mem[rc.pc.b].kind != FinishedExp && rc.mem[rc.pc.b].origin == w
    case OnResponseWire =>
      exists p :: p in s.respWire && p.origin == w
    case InResponseSlot(k) =>
      k < c.workers && IsLanded(c, s.dpc, s.dCq, s.respSlots[k], k) && OwnerOf(c, s.respSlots[k], k) == w
    case InDispatchersHands =>
      || ((s.dpc.EmptySlot? || s.dpc.FlipMailbox?) && s.dpc.w == w)
      || exists k :: 0 <= k < c.workers && k in Pending(s.dpc) && OwnerOf(c, s.respSlots[k], k) == w
    case InMailbox => s.mailboxes[w] == 1
  }

  function PlaceOf(st: Stage): Place
    requires !st.Home?
  {
    match st
    case Own => InOwnSlot
    case Picked => InOwnSlot
    case ReqWire => OnRequestWire
    case InBuf(r, b) => InReceiveBuffer(r, b)
    case Busy(r, _) => InReceiversHands(r)
    case RespWire(_) => OnResponseWire
    case Landed(k) => InResponseSlot(k)
    case Taken(_) => InDispatchersHands
    case Clearing => InDispatchersHands
    case Mailing => InDispatchersHands
    case Mail => InMailbox
  }

  /** The history names the one place where the request is. */
  lemma PlaceIff(c: Config, s: State, a: History, w: nat, place: Place)
    requires WellFormed(c) && Inv(c, s, a) && w < c.workers
    ensures At(c, s, w, place) <==> !a.stage[w].Home? && place == PlaceOf(a.stage[w])
  {
    hide ReceiverAll, RequestWireOk, ResponseWireOk, DispatcherOk, DispatcherCounts;
    assert WorkerFlags(c, w, s.workers[w], a.done[w], a.stage[w], s.reqSlots[w], s.transfered[w], s.mailboxes[w], s.dpc);
    match place
    case InOwnSlot =>
    case InMailbox =>
    case OnRequestWire => RequestWireIff(c, s, a, w);
    case OnResponseWire => ResponseWireIff(c, s, a, w);
    case InReceiveBuffer(r, b) => BufferIff(c, s, a, w, r, b);
    case InReceiversHands(r) => HandsIff(c, s, a, w, r);
    case InResponseSlot(k) => SlotIff(c, s, a, w, k);
    case InDispatchersHands => PendingIff(c, s, a, w);
  }

  lemma RequestWireIff(c: Config, s: State, a: History, w: nat)
    requires WellFormed(c) && Shape(c, s) && HistoryShape(c, a) && RequestWireOk(c, a, s.reqWire) && w < c.workers
    ensures At(c, s, w, OnRequestWire) <==> a.stage[w].ReqWire?
  {
    if p :| p in s.reqWire && p.body.kind == ExpMsg && p.body.origin == w {
      assert RequestPacketOk(c, a, p);
    }
    if a.stage[w].ReqWire? {
      assert ForwardedPacket(c, w, a.done[w]) in s.reqWire;
    }
  }

  lemma ResponseWireIff(c: Config, s: State, a: History, w: nat)
    requires WellFormed(c) && Shape(c, s) && HistoryShape(c, a) && ResponseWireOk(c, a, s.respWire) && w < c.workers
    ensures At(c, s, w, OnResponseWire) <==> a.stage[w].RespWire?
  {
    if p :| p in s.respWire && p.origin == w {
      assert ResponsePacketOk(c, a, p);
    }
    if a.stage[w].RespWire? {
      assert ReplyPacket(c, w, a.done[w]) in s.respWire;
    }
  }

  lemma BufferIff(c: Config, s: State, a: History, w: nat, r: nat, b: nat)
    requires WellFormed(c) && Inv(c, s, a) && w < c.workers
    ensures At(c, s, w, InReceiveBuffer(r, b)) <==> a.stage[w] == InBuf(r, b)
  {
    hide RequestWireOk, ResponseWireOk, DispatcherOk, DispatcherCounts, ReceiverCounts, ReceiverPcOk, ReceiverQueuesOk;
    if r < c.receivers {
      var rc := s.receivers[r];
      assert ReceiverAll(c, a, r, rc);
      if b < BufferLength(c) {
        assert UnreadOk(c, a, r, rc, b);
      }
      if a.stage[w].InBuf? {
        assert ReceiverPlace(c, w, a.done[w], a.stage[w], r, rc);
      }
    }
  }

  lemma HandsIff(c: Config, s: State, a: History, w: nat, r: nat)
    requires WellFormed(c) && Inv(c, s, a) && w < c.workers
    ensures At(c, s, w, InReceiversHands(r)) <==> a.stage[w].Busy? && a.stage[w].r == r
  {
    hide RequestWireOk, ResponseWireOk, DispatcherOk, DispatcherCounts, ReceiverCounts, ReceiverQueuesOk, UnreadOk;
    if r < c.receivers {
      var rc := s.receivers[r];
      assert ReceiverAll(c, a, r, rc);
      if a.stage[w].Busy? {
        assert ReceiverPlace(c, w, a.done[w], a.stage[w], r, rc);
      }
    }
  }

  lemma SlotIff(c: Config, s: State, a: History, w: nat, k: nat)
    requires WellFormed(c) && Shape(c, s) && HistoryShape(c, a) && w < c.workers
    requires DispatcherOk(c, a, s.dpc, s.dPosted, s.dCq, s.respSlots)
    ensures At(c, s, w, InResponseSlot(k)) <==> a.stage[w] == Landed(k)
  {
    if k < c.workers {
      assert SlotOk(c, a, s.dpc, s.dCq, s.respSlots[k], k);
    }
    if a.stage[w].Landed? {
      assert DispatcherPlace(c, w, a.done[w], a.stage[w], s.dpc, s.dCq, s.respSlots);
    }
  }

  lemma PendingIff(c: Config, s: State, a: History, w: nat)
    requires WellFormed(c) && Inv(c, s, a) && w < c.workers
    ensures At(c, s, w, InDispatchersHands) <==> a.stage[w].Taken? || a.stage[w].Clearing? || a.stage[w].Mailing?
  {
    hide RequestWireOk, ResponseWireOk, ReceiverAll, DispatcherCounts;
    assert WorkerFlags(c, w, s.workers[w], a.done[w], a.stage[w], s.reqSlots[w], s.transfered[w], s.mailboxes[w], s.dpc);
    if k :| 0 <= k < c.workers && k in Pending(s.dpc) && OwnerOf(c, s.respSlots[k], k) == w {
      assert SlotOk(c, a, s.dpc, s.dCq, s.respSlots[k], k);
    }
    if a.stage[w].Taken? {
      assert DispatcherPlace(c, w, a.done[w], a.stage[w], s.dpc, s.dCq, s.respSlots);
    }
  }
}
