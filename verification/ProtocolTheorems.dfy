/** The protocol's promises, stated on the states of arbitrary runs. */
module ProtocolTheorems {
  import opened Arithmetic
  import opened Sums
  import opened Counting
  import opened Partition
  import opened Protocol
  import opened ProtocolInvariant
  import opened ProtocolFrames
  import opened ProtocolSafety

  /** While a worker spins, its request is in exactly one place; otherwise it is nowhere. */
  lemma ExactlyOnePlace(c: Config, tr: seq<State>, steps: seq<Step>, n: nat, w: nat)
    requires WellFormed(c) && EnoughCredit(c) && IsRun(c, tr, steps) && n <= |steps| && w < c.workers
    ensures Shape(c, tr[n])
    ensures tr[n].workers[w].Spin? ==>
              exists place :: At(c, tr[n], w, place) && forall other :: At(c, tr[n], w, other) ==> other == place
    ensures !tr[n].workers[w].Spin? ==> forall place :: !At(c, tr[n], w, place)
  {
    var a := RunKeeps(c, tr, steps, n);
    var s := tr[n];
    assert WorkerFlags(c, w, s.workers[w], a.done[w], a.stage[w], s.reqSlots[w], s.transfered[w], s.mailboxes[w], s.dpc);
    hide At, Inv;
    forall place ensures At(c, s, w, place) <==> !a.stage[w].Home? && place == PlaceOf(a.stage[w]) {
      PlaceIff(c, s, a, w, place);
    }
    if s.workers[w].Spin? {
      assert At(c, s, w, PlaceOf(a.stage[w]));
    }
  }

  ghost predicate SameRequest(p: RequestPacket, q: RequestPacket) {
    p.body.kind == ExpMsg && q.body.kind == ExpMsg && p.body.origin == q.body.origin
  }

  /** A worker has at most one message on each wire, and each message is there once. */
  lemma WiresCarryOneEach(c: Config, tr: seq<State>, steps: seq<Step>, n: nat)
    requires WellFormed(c) && EnoughCredit(c) && IsRun(c, tr, steps) && n <= |steps|
    ensures forall p, q :: p in tr[n].reqWire && q in tr[n].reqWire && SameRequest(p, q) ==> p == q
    ensures forall p, q :: p in tr[n].respWire && q in tr[n].respWire && p.origin == q.origin ==> p == q
    ensures forall p :: p in tr[n].reqWire ==> tr[n].reqWire[p] == 1
    ensures forall p :: p in tr[n].respWire ==> tr[n].respWire[p] == 1
  {
    var a := RunKeeps(c, tr, steps, n);
    hide RequestWireOk, ResponseWireOk, ReceiverAll, DispatcherOk, WorkersOk, DispatcherCounts;
    RequestsUnique(c, a, tr[n].reqWire);
    ResponsesUnique(c, a, tr[n].respWire);
  }

  lemma RequestsUnique(c: Config, a: History, wire: multiset<RequestPacket>)
    requires WellFormed(c) && HistoryShape(c, a) && RequestWireOk(c, a, wire)
    ensures forall p, q :: p in wire && q in wire && SameRequest(p, q) ==> p == q
    ensures forall p :: p in wire ==> wire[p] == 1
  {
    forall p, q | p in wire && q in wire && SameRequest(p, q) ensures p == q {
      assert RequestPacketOk(c, a, p) && RequestPacketOk(c, a, q);
    }
    forall p | p in wire ensures wire[p] == 1 {
      assert RequestPacketOk(c, a, p);
    }
  }

  lemma ResponsesUnique(c: Config, a: History, wire: multiset<ResponsePacket>)
    requires WellFormed(c) && HistoryShape(c, a) && ResponseWireOk(c, a, wire)
    ensures forall p, q :: p in wire && q in wire && p.origin == q.origin ==> p == q
    ensures forall p :: p in wire ==> wire[p] == 1
  {
    forall p, q | p in wire && q in wire && p.origin == q.origin ensures p == q {
      assert ResponsePacketOk(c, a, p) && ResponsePacketOk(c, a, q);
    }
    forall p | p in wire ensures wire[p] == 1 {
      assert ResponsePacketOk(c, a, p);
    }
  }

  /** A landed response names, by its sender field, the worker whose forwarded request it answers. */
  lemma LandedAnswersOwner(c: Config, tr: seq<State>, steps: seq<Step>, n: nat, k: nat)
    requires WellFormed(c) && EnoughCredit(c) && IsRun(c, tr, steps) && n <= |steps| && k < c.workers
    requires Shape(c, tr[n]) && IsLanded(c, tr[n].dpc, tr[n].dCq, tr[n].respSlots[k], k)
    ensures var s := tr[n];
            var w := SlotIndex(c.respBase, c.respSize, s.respSlots[k].senderNodeId);
            && 0 <= w < c.workers && s.transfered[w]
            && s.workers[w].Spin? && s.workers[w].i < c.requests
            && s.respSlots[k].responseId == ResponseId(c, w, s.workers[w].i)
            && (!c.dispatcherSrq ==> w == k)
  {
    var a := RunKeeps(c, tr, steps, n);
    var s := tr[n];
    hide ReceiverAll, RequestWireOk, ResponseWireOk, DispatcherCounts;
    assert SlotOk(c, a, s.dpc, s.dCq, s.respSlots[k], k);
    var w := OwnerOf(c, s.respSlots[k], k);
    assert DispatcherPlace(c, w, a.done[w], a.stage[w], s.dpc, s.dCq, s.respSlots);
    assert WorkerFlags(c, w, s.workers[w], a.done[w], a.stage[w], s.reqSlots[w], s.transfered[w], s.mailboxes[w], s.dpc);
    AddressRoundTrip(c.respBase, c.respSize, w);
  }

  /* ---- every request is forwarded exactly once ---- */

  /** What the dispatcher has posted for worker w in the first n steps. */
  ghost function ForwardLog(c: Config, tr: seq<State>, steps: seq<Step>, n: nat, w: nat): seq<RequestPacket>
    requires WellFormed(c) && IsRun(c, tr, steps) && n <= |steps| && w < c.workers
  {
    if n == 0 then []
    else
      assert Next(c, tr[n - 1], steps[n - 1], tr[n]);
      var s := tr[n - 1];
      ForwardLog(c, tr, steps, n - 1, w) +
      if steps[n - 1].DispatcherStep? && s.dpc == Forward(w)
      then [RequestPacket(s.reqSlots[w].padNode, s.reqSlots[w].padPtr, s.reqSlots[w])] else []
  }

  /** Requests of worker w that have left its slot. */
  ghost function Sent(c: Config, s: State, w: nat): nat
    requires WellFormed(c) && Shape(c, s) && w < c.workers
  {
    Index(c, s.workers[w]) + if s.workers[w].Spin? && !At(c, s, w, InOwnSlot) then 1 else 0
  }

  ghost predicate FlagsAt(c: Config, s: State, a: History, w: nat)
    requires WellFormed(c) && w < c.workers
  {
    && Shape(c, s) && HistoryShape(c, a)
    && WorkerFlags(c, w, s.workers[w], a.done[w], a.stage[w], s.reqSlots[w], s.transfered[w], s.mailboxes[w], s.dpc)
  }

  lemma FlagsKnown(c: Config, s: State, a: History, w: nat)
    requires WellFormed(c) && Inv(c, s, a) && w < c.workers
    ensures FlagsAt(c, s, a, w)
  {
  }

  lemma SentIs(c: Config, s: State, a: History, w: nat)
    requires WellFormed(c) && w < c.workers && FlagsAt(c, s, a, w)
    ensures Sent(c, s, w) == a.done[w] + Forwarded(a.stage[w]) <= c.requests
    ensures s.dpc == Forward(w) ==>
              Sent(c, s, w) == a.done[w] < c.requests && s.reqSlots[w] == Request(c, w, Sent(c, s, w))
  {
  }

  lemma SentStep(c: Config, s: State, a: History, step: Step, s': State, w: nat)
    requires WellFormed(c) && Next(c, s, step, s') && Shape(c, s') && w < c.workers && FlagsAt(c, s, a, w)
    requires s'.errors == {}
    ensures Sent(c, s', w) == Sent(c, s, w) + if step.DispatcherStep? && s.dpc == Forward(w) then 1 else 0
  {
    hide Receive, Posts, ReceiverShape, Request, FinishPacket;
    match step
    case WorkerStep(u) => SentWork(c, s, a, u, w);
    case DispatcherStep(stop) => SentDispatch(c, s, a, stop, w);
    case ReceiverStep(r) => SentSame(c, s, s', w);
    case MainStep => SentSame(c, s, s', w);
    case DeliverRequest(p) => SentSame(c, s, s', w);
    case DeliverResponse(p) => SentSame(c, s, s', w);
  }

  /** Sent only depends on five cells of the state. */
  function SentOf(pc: WorkerPc, req: nat, slot: MessageType, transfered: bool, dpc: DispatcherPc, w: nat): nat {
    (match pc case Fill(i) => i case Publish(i) => i case Spin(i) => i case _ => req) +
    if pc.Spin? && !(slot == ExpMsg && !transfered && !(dpc.EmptySlot? && dpc.w == w)) then 1 else 0
  }

  lemma SentCells(c: Config, s: State, w: nat)
    requires WellFormed(c) && Shape(c, s) && w < c.workers
    ensures Sent(c, s, w) == SentOf(s.workers[w], c.requests, s.reqSlots[w].kind, s.transfered[w], s.dpc, w)
  {
  }

  lemma SentSame(c: Config, s: State, s': State, w: nat)
    requires WellFormed(c) && Shape(c, s) && Shape(c, s') && w < c.workers
    requires s'.workers == s.workers && s'.reqSlots == s.reqSlots && s'.transfered == s.transfered && s'.dpc == s.dpc
    ensures Sent(c, s', w) == Sent(c, s, w)
  {
    hide Sent, Shape;
    SentCells(c, s, w);
    SentCells(c, s', w);
  }

  lemma SentWork(c: Config, s: State, a: History, u: nat, w: nat)
    requires WellFormed(c) && w < c.workers && u < c.workers && FlagsAt(c, s, a, w) && Shape(c, Work(c, s, u))
    requires s.workers[u].AtBarrier? ==> AllArrived(s)
    ensures Sent(c, Work(c, s, u), w) == Sent(c, s, w)
  {
    hide ReceiverShape, FinishPacket, Sent, DispatcherShape, Request;
    SentCells(c, s, w);
    SentCells(c, Work(c, s, u), w);
    if u == w {
      assert s.workers[w].Publish? ==> s.reqSlots[w].kind == EMPTY;
    }
  }

  predicate Handing(pc: DispatcherPc) { pc.Handle? || pc.EmptySlot? || pc.FlipMailbox? || pc.Repost? }

  lemma SentDispatch(c: Config, s: State, a: History, stop: bool, w: nat)
    requires WellFormed(c) && w < c.workers && FlagsAt(c, s, a, w) && Shape(c, Dispatch(c, s, stop))
    requires Dispatch(c, s, stop).errors == {}
    ensures Sent(c, Dispatch(c, s, stop), w) == Sent(c, s, w) + if s.dpc == Forward(w) then 1 else 0
  {
    hide ReceiverShape, OwnerOf, Request, Sent, Dispatch;
    SentCells(c, s, w);
    SentCells(c, Dispatch(c, s, stop), w);
    if Handing(s.dpc) {
      SentHandling(c, s, a, stop, w);
    } else {
      SentScanning(c, s, a, stop, w);
    }
  }

  function SentIn(c: Config, s: State, w: nat): nat
    requires w < |s.workers| && w < |s.reqSlots| && w < |s.transfered|
  {
    SentOf(s.workers[w], c.requests, s.reqSlots[w].kind, s.transfered[w], s.dpc, w)
  }

  lemma SentHandling(c: Config, s: State, a: History, stop: bool, w: nat)
    requires WellFormed(c) && w < c.workers && FlagsAt(c, s, a, w) && Shape(c, Dispatch(c, s, stop))
    requires Dispatch(c, s, stop).errors == {} && Handing(s.dpc)
    ensures SentIn(c, Dispatch(c, s, stop), w) == SentIn(c, s, w)
  {
    hide ReceiverShape, OwnerOf, Request, DispatcherShape, FinishFlags;
    assert Shape(c, s);
    assert s.dpc.EmptySlot? && s.dpc.w == w ==> a.stage[w].Clearing?;
  }

  lemma SentScanning(c: Config, s: State, a: History, stop: bool, w: nat)
    requires WellFormed(c) && w < c.workers && FlagsAt(c, s, a, w) && Shape(c, Dispatch(c, s, stop))
    requires !Handing(s.dpc)
    ensures SentIn(c, Dispatch(c, s, stop), w) == SentIn(c, s, w) + if s.dpc == Forward(w) then 1 else 0
  {
    hide ReceiverShape, OwnerOf, Request, DispatcherShape, FinishFlags, Dispatch, WellFormed;
    if s.dpc.Forward? {
      ForwardCells(c, s, stop, w);
      assert s.dpc == Forward(w) ==> a.stage[w].Picked?;
    } else {
      PollingCells(c, s, stop, w);
    }
  }

  lemma ForwardCells(c: Config, s: State, stop: bool, w: nat)
    requires WellFormed(c) && Shape(c, s) && w < c.workers && s.dpc.Forward?
    ensures var s' := Dispatch(c, s, stop);
            && s'.workers == s.workers && s'.reqSlots == s.reqSlots && s'.dpc == Scan(s.dpc.k + 1)
            && s'.transfered == s.transfered[s.dpc.k := true]
  {
    hide ReceiverShape;
  }

  lemma PollingCells(c: Config, s: State, stop: bool, w: nat)
    requires WellFormed(c) && Shape(c, s) && w < c.workers && !Handing(s.dpc) && !s.dpc.Forward?
    ensures var s' := Dispatch(c, s, stop);
            && s'.workers == s.workers && s'.reqSlots == s.reqSlots && s'.transfered == s.transfered
            && !s'.dpc.EmptySlot? && !s.dpc.EmptySlot?
  {
    hide ReceiverShape, OwnerOf;
  }

  /** The dispatcher forwards the requests of a worker in order, each exactly once, and nothing else. */
  lemma {:induction false} ForwardedExactlyOnce(c: Config, tr: seq<State>, steps: seq<Step>, n: nat, w: nat)
    requires WellFormed(c) && EnoughCredit(c) && IsRun(c, tr, steps) && n <= |steps| && w < c.workers
    ensures Shape(c, tr[n]) && Sent(c, tr[n], w) <= c.requests
    ensures ForwardLog(c, tr, steps, n, w) == FirstRequests(c, w, Sent(c, tr[n], w))
  {
    hide WellFormed, Inv, At, FirstRequests, Sent, Shape, IsRun, ForwardLog, EnoughCredit;
    RunLength(c, tr, steps);
    SentInRange(c, tr, steps, n, w);
    if n == 0 {
      LogAtStart(c, tr, steps, w);
    } else {
      ForwardedExactlyOnce(c, tr, steps, n - 1, w);
      LogStep(c, tr, steps, n, w);
    }
  }

  lemma LogAtStart(c: Config, tr: seq<State>, steps: seq<Step>, w: nat)
    requires WellFormed(c) && IsRun(c, tr, steps) && w < c.workers
    ensures Shape(c, tr[0]) && Sent(c, tr[0], w) <= c.requests
    ensures ForwardLog(c, tr, steps, 0, w) == FirstRequests(c, w, Sent(c, tr[0], w))
  {
    hide Sent, Shape, Init, Next;
    SentAtStart(c, w);
  }

  lemma SentAtStart(c: Config, w: nat)
    requires WellFormed(c) && w < c.workers
    ensures Shape(c, Init(c)) && Sent(c, Init(c), w) == 0 && FirstRequests(c, w, 0) == []
  {
    InitOk(c);
  }

  lemma SentInRange(c: Config, tr: seq<State>, steps: seq<Step>, n: nat, w: nat)
    requires WellFormed(c) && EnoughCredit(c) && IsRun(c, tr, steps) && n <= |steps| && w < c.workers
    ensures Shape(c, tr[n]) && Sent(c, tr[n], w) <= c.requests
    ensures tr[n].dpc == Forward(w) ==>
              Sent(c, tr[n], w) < c.requests && tr[n].reqSlots[w] == Request(c, w, Sent(c, tr[n], w))
  {
    hide Inv, At, Request;
    var a := RunKeeps(c, tr, steps, n);
    FlagsKnown(c, tr[n], a, w);
    SentIs(c, tr[n], a, w);
  }

  lemma LogStep(c: Config, tr: seq<State>, steps: seq<Step>, n: nat, w: nat)
    requires WellFormed(c) && EnoughCredit(c) && IsRun(c, tr, steps) && 0 < n <= |steps| && w < c.workers
    requires Shape(c, tr[n - 1]) && Sent(c, tr[n - 1], w) <= c.requests
    requires Shape(c, tr[n]) && Sent(c, tr[n], w) <= c.requests
    requires ForwardLog(c, tr, steps, n - 1, w) == FirstRequests(c, w, Sent(c, tr[n - 1], w))
    ensures ForwardLog(c, tr, steps, n, w) == FirstRequests(c, w, Sent(c, tr[n], w))
  {
    hide WellFormed, Inv, At, Request, FlagsAt, Sent, Shape, IsRun, Next, EnoughCredit;
    RunLength(c, tr, steps);
    SentInRange(c, tr, steps, n - 1, w);
    SentInRun(c, tr, steps, n, w);
  }

  lemma RunNext(c: Config, tr: seq<State>, steps: seq<Step>, n: nat)
    requires WellFormed(c) && IsRun(c, tr, steps) && n < |steps|
    ensures Next(c, tr[n], steps[n], tr[n + 1])
  {
    hide Next;
  }

  lemma SentInRun(c: Config, tr: seq<State>, steps: seq<Step>, n: nat, w: nat)
    requires WellFormed(c) && EnoughCredit(c) && IsRun(c, tr, steps) && 0 < n <= |steps| && w < c.workers
    requires Shape(c, tr[n - 1]) && Shape(c, tr[n])
    ensures Sent(c, tr[n], w) == Sent(c, tr[n - 1], w)
            + if steps[n - 1].DispatcherStep? && tr[n - 1].dpc == Forward(w) then 1 else 0
  {
    hide WellFormed, Inv, At, Request, FlagsAt, Sent, Shape, IsRun, Next, EnoughCredit, ForwardedPacket;
    RunLength(c, tr, steps);
    RunNext(c, tr, steps, n - 1);
    var a := RunKeeps(c, tr, steps, n - 1);
    FlagsKnown(c, tr[n - 1], a, w);
    NoErrors(c, tr, steps, n);
    SentStep(c, tr[n - 1], a, steps[n - 1], tr[n], w);
  }

  /** The packets of a worker's first k requests, in order. */
  ghost function FirstRequests(c: Config, w: nat, k: nat): seq<RequestPacket>
    requires WellFormed(c) && w < c.workers && k <= c.requests
  {
    if k == 0 then [] else FirstRequests(c, w, k - 1) + [ForwardedPacket(c, w, k - 1)]
  }

  lemma {:induction false} FirstRequestsLength(c: Config, w: nat, n: nat)
    requires WellFormed(c) && w < c.workers && n <= c.requests
    ensures |FirstRequests(c, w, n)| == n
  {
    if n > 0 {
      FirstRequestsLength(c, w, n - 1);
    }
  }

  /** The dispatcher's own counters agree with what the workers have issued and got back. */
  lemma DispatcherCountersExact(c: Config, tr: seq<State>, steps: seq<Step>, n: nat)
    requires WellFormed(c) && EnoughCredit(c) && IsRun(c, tr, steps) && n <= |steps|
    requires AllArrived(tr[n])
    ensures tr[n].dispatched == tr[n].received == c.workers * c.requests
  {
    hide Inv, AllArrived;
    var a := RunKeeps(c, tr, steps, n);
    CountersAtEnd(c, tr[n], a);
  }

  lemma CountersAtEnd(c: Config, s: State, a: History)
    requires WellFormed(c) && Inv(c, s, a) && AllArrived(s)
    ensures s.dispatched == s.received == c.workers * c.requests
  {
    hide ReceiverAll, RequestWireOk, ResponseWireOk, DispatcherOk;
    forall w | 0 <= w < c.workers ensures a.done[w] == c.requests && a.stage[w].Home? {
      assert WorkerFlags(c, w, s.workers[w], a.done[w], a.stage[w], s.reqSlots[w], s.transfered[w], s.mailboxes[w], s.dpc);
    }
    hide WorkersOk;
    TotalConst(ForwardedSeq(c, a), c.requests);
    TotalConst(CollectedSeq(c, a), c.requests);
  }

  /** No finish message is sent before all workers have arrived and every request has been answered and collected. */
  lemma FinishAfterBarrier(c: Config, tr: seq<State>, steps: seq<Step>, n: nat)
    requires WellFormed(c) && EnoughCredit(c) && IsRun(c, tr, steps) && n <= |steps|
    requires (exists p :: p in tr[n].reqWire && p.body.kind == FinishedExp)
             || exists r :: 0 <= r < |tr[n].receivers| && tr[n].receivers[r].finished > 0
    ensures AllArrived(tr[n]) && tr[n].dispatched == tr[n].received == c.workers * c.requests
  {
    hide Inv, AllArrived, EnoughCredit, Next;
    var a := RunKeeps(c, tr, steps, n);
    if p :| p in tr[n].reqWire && p.body.kind == FinishedExp {
      FinishOnWire(c, tr[n], a, p);
    } else {
      var r :| 0 <= r < |tr[n].receivers| && tr[n].receivers[r].finished > 0;
      FinishCounted(c, tr[n], a, r);
    }
    DispatcherCountersExact(c, tr, steps, n);
  }

  lemma FinishOnWire(c: Config, s: State, a: History, p: RequestPacket)
    requires WellFormed(c) && Inv(c, s, a) && p in s.reqWire && p.body.kind == FinishedExp
    ensures AllArrived(s)
  {
    hide ReceiverAll, ResponseWireOk, DispatcherOk, DispatcherCounts, WorkerFlags, AllArrived;
    assert RequestPacketOk(c, a, p);
    assert FinishFlags(c, s.workers[p.body.origin], a.fin[p.body.origin]);
  }

  lemma FinishCounted(c: Config, s: State, a: History, r: nat)
    requires WellFormed(c) && Inv(c, s, a) && r < |s.receivers| && s.receivers[r].finished > 0
    ensures AllArrived(s)
  {
    hide ReceiverOk, ReceiverPlaces, RequestWireOk, ResponseWireOk, DispatcherOk, DispatcherCounts, WorkerFlags, AllArrived;
    assert ReceiverAll(c, a, r, s.receivers[r]);
    var w := SomeCounted(c, a, r);
    assert FinishFlags(c, s.workers[w], a.fin[w]);
  }

  lemma SomeCounted(c: Config, a: History, r: nat) returns (w: nat)
    requires HistoryShape(c, a) && r < c.receivers && Total(CountedSeq(c, a, r)) > 0
    ensures w < c.workers && a.fin[w][r].FCounted?
  {
    if forall u :: 0 <= u < c.workers ==> CountedSeq(c, a, r)[u] == 0 {
      TotalZero(CountedSeq(c, a, r));
    }
    w :| 0 <= w < c.workers && CountedSeq(c, a, r)[w] != 0;
  }

  /* ---- what the receivers report ---- */

  /** Number of requests the workers address to receiver r over the whole run. */
  ghost function Addressed(c: Config, r: nat): int
    requires WellFormed(c)
  {
    Total(HitColumn(c, r, AllRequests(c)))
  }

  function AllRequests(c: Config): seq<nat> { seq(c.workers, _ => c.requests) }

  ghost predicate Prefixes(c: Config, ns: seq<nat>) {
    |ns| <= c.workers && forall w :: 0 <= w < |ns| ==> ns[w] <= c.requests
  }

  /** For each worker, how many of its first ns[w] requests go to receiver r. */
  ghost function HitColumn(c: Config, r: nat, ns: seq<nat>): seq<int>
    requires WellFormed(c) && Prefixes(c, ns)
  {
    seq(|ns|, w requires 0 <= w < |ns| => Hits(c, w, r, ns[w]))
  }

  /** A receiver that has returned handled exactly the requests addressed to it, after every worker was done. */
  lemma ReturnedHandledAll(c: Config, tr: seq<State>, steps: seq<Step>, n: nat, r: nat)
    requires WellFormed(c) && EnoughCredit(c) && IsRun(c, tr, steps) && n <= |steps| && r < c.receivers
    requires Shape(c, tr[n]) && tr[n].receivers[r].pc.Returned?
    ensures tr[n].receivers[r].handled == Addressed(c, r)
    ensures tr[n].receivers[r].finished == c.workers
    ensures forall w :: 0 <= w < c.workers ==> SentFinish(tr[n].workers[w], r) && !FinishUnderWay(c, tr[n], w, r)
  {
    hide Inv, FinishUnderWay, SentFinish, EnoughCredit, Next;
    var a := RunKeeps(c, tr, steps, n);
    ReturnedIn(c, tr[n], a, r);
  }

  lemma ReturnedIn(c: Config, s: State, a: History, r: nat)
    requires WellFormed(c) && Inv(c, s, a) && r < c.receivers && s.receivers[r].pc.Returned?
    ensures s.receivers[r].handled == Addressed(c, r) && s.receivers[r].finished == c.workers
    ensures forall w :: 0 <= w < c.workers ==> SentFinish(s.workers[w], r) && !FinishUnderWay(c, s, w, r)
  {
    hide FinishUnderWay, SentFinish, HitSeq, HitColumn, Total, ReceiverAll, RequestWireOk, ResponseWireOk, DispatcherOk,
         DispatcherCounts, WorkersOk, PhaseOk;
    AllCounted(c, s, a, r);
    AllHit(c, a, r);
    forall w | 0 <= w < c.workers ensures SentFinish(s.workers[w], r) && !FinishUnderWay(c, s, w, r) {
      CountedIff(c, s, a, w, r);
    }
  }

  lemma AllHit(c: Config, a: History, r: nat)
    requires WellFormed(c) && HistoryShape(c, a)
    requires forall w :: 0 <= w < c.workers ==> a.done[w] == c.requests && a.stage[w].Home?
    ensures HitSeq(c, a, r) == HitColumn(c, r, AllRequests(c))
  {
  }

  lemma AllCounted(c: Config, s: State, a: History, r: nat)
    requires WellFormed(c) && Inv(c, s, a) && r < c.receivers && s.receivers[r].pc.Returned?
    ensures s.receivers[r].finished == c.workers && s.receivers[r].handled == Total(HitSeq(c, a, r))
    ensures forall w :: 0 <= w < c.workers ==> a.fin[w][r].FCounted? && a.done[w] == c.requests && a.stage[w].Home?
  {
    hide ReceiverOk, ReceiverPlaces, RequestWireOk, ResponseWireOk, DispatcherOk, DispatcherCounts, WorkersOk;
    assert ReceiverAll(c, a, r, s.receivers[r]);
    TotalFull(CountedSeq(c, a, r));
    forall w | 0 <= w < c.workers ensures a.fin[w][r].FCounted? && a.done[w] == c.requests && a.stage[w].Home? {
      assert CountedSeq(c, a, r)[w] == 1;
      CountedMeansDone(c, s, a, w, r);
    }
  }

  lemma CountedMeansDone(c: Config, s: State, a: History, w: nat, r: nat)
    requires WellFormed(c) && Inv(c, s, a) && w < c.workers && r < c.receivers && a.fin[w][r].FCounted?
    ensures a.done[w] == c.requests && a.stage[w].Home?
  {
    hide ReceiverAll, RequestWireOk, ResponseWireOk, DispatcherOk, DispatcherCounts;
    assert FinishFlags(c, s.workers[w], a.fin[w]);
    assert WorkerFlags(c, w, s.workers[w], a.done[w], a.stage[w], s.reqSlots[w], s.transfered[w], s.mailboxes[w], s.dpc);
  }

  predicate SentFinish(pc: WorkerPc, r: nat) {
    pc.Finished? || (pc.Finalize? && r < pc.k)
  }

  /** Worker w's finish message to r is on the wire, unread in a buffer, or being looked at. */
  ghost predicate FinishUnderWay(c: Config, s: State, w: nat, r: nat)
    requires WellFormed(c) && Shape(c, s) && w < c.workers && r < c.receivers
  {
    || FinishPacket(c, w, r) in s.reqWire
    || (exists b :: 0 <= b < BufferLength(c) && Unread(c, s.receivers[r], b)
                    && s.receivers[r].mem[b].kind == FinishedExp && s.receivers[r].mem[b].origin == w)
    || (s.receivers[r].pc.Test? && s.receivers[r].mem[s.receivers[r].pc.b].kind == FinishedExp
        && s.receivers[r].mem[s.receivers[r].pc.b].origin == w)
  }

  lemma CountedIff(c: Config, s: State, a: History, w: nat, r: nat)
    requires WellFormed(c) && Inv(c, s, a) && w < c.workers && r < c.receivers
    ensures a.fin[w][r].FCounted? <==> SentFinish(s.workers[w], r) && !FinishUnderWay(c, s, w, r)
  {
    hide ResponseWireOk, DispatcherOk, DispatcherCounts, ReceiverCounts, ReceiverQueuesOk;
    assert FinishFlags(c, s.workers[w], a.fin[w]);
    var rc := s.receivers[r];
    assert ReceiverAll(c, a, r, rc);
    assert FinishPlace(c, w, a.fin[w][r], rc);
    if FinishPacket(c, w, r) in s.reqWire {
      assert RequestPacketOk(c, a, FinishPacket(c, w, r));
    }
    if b :| 0 <= b < BufferLength(c) && Unread(c, rc, b) && rc.mem[b].kind == FinishedExp && rc.mem[b].origin == w {
      assert UnreadOk(c, a, r, rc, b);
    }
  }

  /** One entry per worker: 1 if its finish message was sent to r and is no longer under way. */
  ghost function Consumed(c: Config, s: State, r: nat): seq<int>
    requires WellFormed(c) && Shape(c, s) && r < c.receivers
  {
    seq(c.workers, w requires 0 <= w < c.workers =>
      B2I(SentFinish(s.workers[w], r) && !FinishUnderWay(c, s, w, r)))
  }

  /** At any time a receiver has counted exactly the finish messages sent to it and no longer under way. */
  lemma FinishConservation(c: Config, tr: seq<State>, steps: seq<Step>, n: nat, r: nat)
    requires WellFormed(c) && EnoughCredit(c) && IsRun(c, tr, steps) && n <= |steps| && r < c.receivers
    ensures Shape(c, tr[n]) && tr[n].receivers[r].finished == Total(Consumed(c, tr[n], r))
  {
    hide EnoughCredit, Next, Consumed, ReceiverAll, RequestWireOk, ResponseWireOk, DispatcherOk, DispatcherCounts,
         WorkersOk, PhaseOk;
    var a := RunKeeps(c, tr, steps, n);
    FinishConserved(c, tr[n], a, r);
  }

  lemma FinishConserved(c: Config, s: State, a: History, r: nat)
    requires WellFormed(c) && Inv(c, s, a) && r < c.receivers
    ensures s.receivers[r].finished == Total(Consumed(c, s, r))
  {
    hide FinishUnderWay, SentFinish, ReceiverOk, ReceiverPlaces, RequestWireOk, ResponseWireOk, DispatcherOk,
         DispatcherCounts, WorkersOk;
    assert ReceiverAll(c, a, r, s.receivers[r]);
    forall w | 0 <= w < c.workers ensures CountedSeq(c, a, r)[w] == Consumed(c, s, r)[w] {
      CountedIff(c, s, a, w, r);
    }
    assert CountedSeq(c, a, r) == Consumed(c, s, r);
  }

  /** The first n requests of worker w, by receiver. */
  ghost function HitRow(c: Config, w: nat, n: nat): seq<int>
    requires WellFormed(c) && w < c.workers && n <= c.requests
  {
    seq(c.receivers, r requires 0 <= r < c.receivers => Hits(c, w, r, n))
  }

  /** The first n requests of a worker are split among the receivers. */
  lemma {:induction false} HitsAddUp(c: Config, w: nat, n: nat)
    requires WellFormed(c) && w < c.workers && n <= c.requests
    ensures Total(HitRow(c, w, n)) == n
  {
    if n == 0 {
      TotalZero(HitRow(c, w, n));
    } else {
      HitsAddUp(c, w, n - 1);
      TotalChange(HitRow(c, w, n - 1), HitRow(c, w, n), Target(c, w, n - 1));
    }
  }

  /** The first ns[w] requests of every worker w, by receiver. */
  ghost function ByReceiver(c: Config, ns: seq<nat>): seq<int>
    requires WellFormed(c) && Prefixes(c, ns)
  {
    seq(c.receivers, r requires 0 <= r < c.receivers => Total(HitColumn(c, r, ns)))
  }

  /** Counting requests by receiver or by worker comes to the same. */
  lemma {:induction false} ByReceiverAddsUp(c: Config, ns: seq<nat>)
    requires WellFormed(c) && Prefixes(c, ns)
    ensures Total(ByReceiver(c, ns)) == Total(ns)
  {
    if ns == [] {
      TotalZero(ByReceiver(c, ns));
    } else {
      var m := |ns| - 1;
      ByReceiverAddsUp(c, ns[..m]);
      HitsAddUp(c, m, ns[m]);
      forall r | 0 <= r < c.receivers
        ensures ByReceiver(c, ns)[r] == ByReceiver(c, ns[..m])[r] + HitRow(c, m, ns[m])[r]
      {
        assert HitColumn(c, r, ns)[..m] == HitColumn(c, r, ns[..m]);
      }
      TotalAdd(ByReceiver(c, ns[..m]), HitRow(c, m, ns[m]), ByReceiver(c, ns));
    }
  }

  /** What the receivers have handled so far. */
  ghost function Reports(s: State): seq<int> {
    seq(|s.receivers|, r requires 0 <= r < |s.receivers| => s.receivers[r].handled)
  }

  /** When all receivers have returned, what they report adds up to all requests issued. */
  lemma ReportsAddUp(c: Config, tr: seq<State>, steps: seq<Step>, n: nat)
    requires WellFormed(c) && EnoughCredit(c) && IsRun(c, tr, steps) && n <= |steps| && Shape(c, tr[n])
    requires forall r :: 0 <= r < c.receivers ==> tr[n].receivers[r].pc.Returned?
    ensures Total(Reports(tr[n])) == c.workers * c.requests
  {
    forall r | 0 <= r < c.receivers ensures Reports(tr[n])[r] == ByReceiver(c, AllRequests(c))[r] {
      ReturnedHandledAll(c, tr, steps, n, r);
    }
    ByReceiverAddsUp(c, AllRequests(c));
    TotalConst(AllRequests(c), c.requests);
    assert Reports(tr[n]) == ByReceiver(c, AllRequests(c));
  }

  /** The dispatcher is stopped only when nothing is outstanding for it. */
  lemma StoppedMeansQuiet(c: Config, tr: seq<State>, steps: seq<Step>, n: nat)
    requires WellFormed(c) && EnoughCredit(c) && IsRun(c, tr, steps) && n <= |steps| && !tr[n].running
    ensures Shape(c, tr[n]) && AllFinished(tr[n]) && tr[n].respWire == multiset{}
    ensures forall w, place :: 0 <= w < c.workers ==> !At(c, tr[n], w, place)
    ensures tr[n].dispatched == tr[n].received == c.workers * c.requests
  {
    var a := RunKeeps(c, tr, steps, n);
    var s := tr[n];
    assert AllFinished(s);
    forall w, place | 0 <= w < c.workers ensures !At(c, s, w, place) {
      ExactlyOnePlace(c, tr, steps, n, w);
    }
    if p :| p in s.respWire {
      assert ResponsePacketOk(c, a, p);
      assert At(c, s, p.origin, OnResponseWire);
    }
    assert s.respWire == multiset{};
    DispatcherCountersExact(c, tr, steps, n);
  }

  /* ---- enough buffers ---- */

  /** An SRQ receiver has its spare buffer exactly if some node below the largest sender is not a sender. */
  lemma SpareIdGivesCredit(c: Config)
    requires WellFormed(c)
    ensures BufferLength(c) >= c.workers + 1 <==>
            exists id: nat :: id < MaxOf(c.nodeIds) && id !in c.nodeIds
  {
    DistinctFill(c.nodeIds, BufferLength(c));
  }
}
