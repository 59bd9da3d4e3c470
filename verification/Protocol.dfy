/**
 The dispatcher benchmark as interleaved steps: workers fill a request slot each, one dispatcher
 forwards the slots and distributes the responses, receivers answer. Every thread is a program
 counter plus the shared memory it reads and writes; one step is one access to shared memory.

 Both ways of receiving are modelled. A polling (BUF) peer finds a message in a fixed slot; a
 shared-receive-queue (SRQ) peer must have a buffer posted when a message arrives.
 */
module Protocol {
  import opened Partition

  datatype MessageType = EMPTY | ExpMsg | FinishedExp

  /** `origin` is history: the worker a message is about. No step reads it to decide anything. */
  datatype Message = Message(
    msgId: nat, id: nat, destinationNodeID: nat, rdmaPtr: nat,
    padNode: nat, padPtr: nat, kind: MessageType, origin: nat)

  datatype Response = Response(senderNodeId: nat, responseId: nat, transferFlag: nat)

  /** A request or finish message travelling to address `addr` of receiver `to`; its body was copied when posted. */
  datatype RequestPacket = RequestPacket(to: nat, addr: nat, body: Message)

  /** A response travelling to address `addr` of node `to`. Only its source slot is named:
      large responses are read from the receiver's memory as late as on arrival. */
  datatype ResponsePacket = ResponsePacket(from: nat, slot: nat, to: nat, addr: nat, origin: nat)

  const MESSAGE_SIZE: nat := 64
  const BATCH: nat := 16

  /** Everything fixed before the measured phase; `rand[w][i]` is the i-th number worker w draws. */
  datatype Config = Config(
    workers: nat, receivers: nat, requests: nat,
    nodeIds: seq<nat>, dispatcherId: nat, prepared: nat, rand: seq<seq<nat>>,
    reqBases: seq<nat>, respBase: nat, respSize: nat,
    receiverSrq: bool, dispatcherSrq: bool)

  function MaxOf(ids: seq<nat>): (m: nat)
    requires ids != []
    ensures m in ids
    ensures forall k :: 0 <= k < |ids| ==> ids[k] <= m
  {
    if |ids| == 1 then ids[0]
    else
      var m := MaxOf(ids[..|ids| - 1]);
      if m < ids[|ids| - 1] then ids[|ids| - 1] else m
  }

  /** Facts the set-up phase establishes. */
  ghost predicate WellFormed(c: Config) {
    && c.workers > 0 && c.receivers > 0 && c.respSize > 0
    && |c.nodeIds| == c.workers
    && (forall u, w :: 0 <= u < w < c.workers ==> c.nodeIds[u] != c.nodeIds[w])
    && c.prepared / BufferLength(c) >= 2
    && |c.rand| == c.workers
    && (forall w :: 0 <= w < c.workers ==> |c.rand[w]| == c.requests)
    && |c.reqBases| == c.receivers
  }

  /** reqBufferLength_ after the init phase. */
  function BufferLength(c: Config): nat
    requires c.workers > 0 && |c.nodeIds| == c.workers
  {
    MaxOf(c.nodeIds) + 1
  }

  /** One receive buffer more than there are senders, if an SRQ receiver has any request to answer. */
  ghost predicate EnoughCredit(c: Config)
    requires WellFormed(c)
  {
    c.receiverSrq && c.requests > 0 ==> BufferLength(c) >= c.workers + 1
  }

  function SlotAddress(base: nat, size: nat, k: nat): nat { base + k * size }

  /** The slot a peer computes from an address; none below the base. */
  function SlotIndex(base: nat, size: nat, addr: nat): int
    requires size > 0
  {
    if addr < base then -1 else (addr - base) / size
  }

  function Target(c: Config, w: nat, i: nat): nat
    requires WellFormed(c) && w < c.workers && i < c.requests
  {
    c.rand[w][i] % c.receivers
  }

  /** Prepared response the i-th request of worker w asks for, drawn from the slice of its node. */
  function ResponseId(c: Config, w: nat, i: nat): nat
    requires WellFormed(c) && w < c.workers && i < c.requests
  {
    var n := BufferLength(c);
    SliceUsable(c.prepared, n, c.nodeIds[w]);
    var from, to := SliceFrom(c.prepared, n, c.nodeIds[w]), SliceTo(c.prepared, n, c.nodeIds[w]);
    c.rand[w][i] % (to - from) + from
  }

  /** The i-th request of worker w, as its fields are written into the shared slot. */
  function Request(c: Config, w: nat, i: nat): Message
    requires WellFormed(c) && w < c.workers && i < c.requests
  {
    var r := Target(c, w, i);
    Message(i, ResponseId(c, w, i), c.dispatcherId, SlotAddress(c.respBase, c.respSize, w),
            r, SlotAddress(c.reqBases[r], MESSAGE_SIZE, c.nodeIds[w]), ExpMsg, w)
  }

  function FinishMessage(w: nat): Message {
    Message(0, 0, 0, 0, 0, 0, FinishedExp, w)
  }

  datatype WorkerPc =
    | Fill(i: nat) | Publish(i: nat) | Spin(i: nat)
    | AtBarrier | Finalize(k: nat) | Finished

  datatype DispatcherPc =
    | Top | Scan(k: nat) | Forward(k: nat)
    | PollFlag(k: nat) | PollQueue(batch: seq<nat>) | ClearFlag(k: nat)
    | Handle(batch: seq<nat>, j: nat)
    | EmptySlot(batch: seq<nat>, j: nat, w: nat)
    | FlipMailbox(batch: seq<nat>, j: nat, w: nat)
    | Repost(batch: seq<nat>, j: nat, w: nat)
    | Halted

  datatype ReceiverPc =
    | Poll(pos: nat) | Test(b: nat) | Build(b: nat) | Release(b: nat)
    | Transfer(b: nat) | Refill(b: nat) | ClearFinish(b: nat) | Returned

  datatype Receiver = Receiver(
    mem: seq<Message>, posted: seq<nat>, cq: seq<nat>, responses: map<nat, Response>,
    pc: ReceiverPc, finished: nat, handled: nat)

  /** What the code would report, or what the hardware would turn into a broken connection. */
  datatype Error = NotTransfered | CasFailed | ReceiverNotReady | Overwritten | BadAddress

  datatype State = State(
    workers: seq<WorkerPc>, mailboxes: seq<nat>, reqSlots: seq<Message>, respSlots: seq<Response>,
    transfered: seq<bool>, dpc: DispatcherPc, running: bool, dPosted: seq<nat>, dCq: seq<nat>,
    dispatched: nat, received: nat,
    receivers: seq<Receiver>,
    reqWire: multiset<RequestPacket>, respWire: multiset<ResponsePacket>,
    errors: set<Error>)

  datatype Step =
    | WorkerStep(w: nat)
    | DispatcherStep(stop: bool)   // stop: the completion poll returns what it has, if it has anything
    | ReceiverStep(r: nat)
    | MainStep
    | DeliverRequest(request: RequestPacket)
    | DeliverResponse(response: ResponsePacket)

  const EMPTY_MESSAGE := Message(0, 0, 0, 0, 0, 0, EMPTY, 0)
  const ZERO_RESPONSE := Response(0, 0, 0)

  function Iota(n: nat): seq<nat> { seq(n, k requires 0 <= k < n => k) }

  function InitReceiver(c: Config): Receiver
    requires c.workers > 0 && |c.nodeIds| == c.workers
  {
    var n := BufferLength(c);
    Receiver(seq(n, _ => EMPTY_MESSAGE), if c.receiverSrq then Iota(n) else [], [], map[], Poll(0), 0, 0)
  }

  function Init(c: Config): State
    requires c.workers > 0 && |c.nodeIds| == c.workers
  {
    State(seq(c.workers, _ => Fill(0)), seq(c.workers, _ => 0), seq(c.workers, _ => EMPTY_MESSAGE),
          seq(c.workers, _ => ZERO_RESPONSE), seq(c.workers, _ => false), Top, true,
          if c.dispatcherSrq then Iota(c.workers) else [], [], 0, 0,
          seq(c.receivers, _ => InitReceiver(c)), multiset{}, multiset{}, {})
  }

  /** Sizes of the shared arrays and ranges of the indices threads hold. */
  ghost predicate Shape(c: Config, s: State)
    requires WellFormed(c)
  {
    && |s.workers| == |s.mailboxes| == |s.reqSlots| == |s.respSlots| == |s.transfered| == c.workers
    && |s.receivers| == c.receivers
    && (forall k :: k in s.dCq ==> k < c.workers)
    && DispatcherShape(c, s.dpc)
    && (forall r :: 0 <= r < c.receivers ==> ReceiverShape(c, s.receivers[r]))
  }

  ghost predicate DispatcherShape(c: Config, pc: DispatcherPc) {
    match pc
    case Top => true
    case Halted => true
    case Scan(k) => k <= c.workers
    case Forward(k) => k < c.workers
    case PollFlag(k) => k <= c.workers
    case ClearFlag(k) => k < c.workers
    case PollQueue(batch) => forall k :: k in batch ==> k < c.workers
    case Handle(batch, j) => j <= |batch| && forall k :: k in batch ==> k < c.workers
    case EmptySlot(batch, j, w) => j < |batch| && w < c.workers && forall k :: k in batch ==> k < c.workers
    case FlipMailbox(batch, j, w) => j < |batch| && w < c.workers && forall k :: k in batch ==> k < c.workers
    case Repost(batch, j, w) => j < |batch| && w < c.workers && forall k :: k in batch ==> k < c.workers
  }

  ghost predicate ReceiverShape(c: Config, rc: Receiver)
    requires WellFormed(c)
  {
    var n := BufferLength(c);
    && |rc.mem| == n
    && (forall b :: b in rc.posted ==> b < n)
    && (forall b :: b in rc.cq ==> b < n)
    && (match rc.pc
        case Poll(pos) => pos < n
        case Returned => true
        case Test(b) => b < n
        case Build(b) => b < n
        case Release(b) => b < n
        case Transfer(b) => b < n
        case Refill(b) => b < n
        case ClearFinish(b) => b < n)
  }

  predicate Arrived(pc: WorkerPc) { pc.AtBarrier? || pc.Finalize? || pc.Finished? }

  ghost predicate AllArrived(s: State) {
    forall w :: 0 <= w < |s.workers| ==> Arrived(s.workers[w])
  }

  ghost predicate AllFinished(s: State) {
    forall w :: 0 <= w < |s.workers| ==> s.workers[w].Finished?
  }

  ghost predicate Enabled(c: Config, s: State, step: Step)
    requires WellFormed(c) && Shape(c, s)
  {
    match step
    case WorkerStep(w) => w < c.workers && !s.workers[w].Finished? && (s.workers[w].AtBarrier? ==> AllArrived(s))
    case DispatcherStep(_) => !s.dpc.Halted?
    case ReceiverStep(r) => r < c.receivers && !s.receivers[r].pc.Returned?
    case MainStep => s.running && AllFinished(s)
    case DeliverRequest(p) => p in s.reqWire
    case DeliverResponse(p) => p in s.respWire
  }

  function Apply(c: Config, s: State, step: Step): State
    requires WellFormed(c) && Shape(c, s) && Enabled(c, s, step)
  {
    match step
    case WorkerStep(w) => Work(c, s, w)
    case DispatcherStep(stop) => Dispatch(c, s, stop)
    case ReceiverStep(r) => s.(receivers := s.receivers[r := Receive(c, s.receivers[r])],
                               respWire := s.respWire + Posts(s.receivers[r], r))
    case MainStep => s.(running := false)
    case DeliverRequest(p) => ArriveRequest(c, s.(reqWire := s.reqWire - multiset{p}), p)
    case DeliverResponse(p) => ArriveResponse(c, s.(respWire := s.respWire - multiset{p}), p)
  }

  /** One step of BenchmarkSender::benchmarkPhase (dispatcher overload), the barrier and finalizePhase. */
  function Work(c: Config, s: State, w: nat): State
    requires WellFormed(c) && Shape(c, s) && w < c.workers
  {
    match s.workers[w]
    case Fill(i) =>
      if i < c.requests then
        s.(reqSlots := s.reqSlots[w := Request(c, w, i).(kind := s.reqSlots[w].kind)],
           workers := s.workers[w := Publish(i)])
      else
        s.(workers := s.workers[w := AtBarrier])
    case Publish(i) =>
      s.(reqSlots := s.reqSlots[w := s.reqSlots[w].(kind := ExpMsg)], workers := s.workers[w := Spin(i)])
    case Spin(i) =>
      if s.mailboxes[w] == 1 then
        s.(mailboxes := s.mailboxes[w := 0], workers := s.workers[w := Fill(i + 1)])
      else
        s
    case AtBarrier => s.(workers := s.workers[w := Finalize(0)])
    case Finalize(k) =>
      if k < c.receivers then
        s.(reqWire := s.reqWire + multiset{FinishPacket(c, w, k)}, workers := s.workers[w := Finalize(k + 1)])
      else
        s.(workers := s.workers[w := Finished])
    case Finished => s
  }

  function FinishPacket(c: Config, w: nat, r: nat): RequestPacket
    requires WellFormed(c) && w < c.workers && r < c.receivers
  {
    RequestPacket(r, SlotAddress(c.reqBases[r], MESSAGE_SIZE, c.nodeIds[w]), FinishMessage(w))
  }

  /** Worker a completed response slot belongs to: the slot itself (BUF) or its sender field decoded (SRQ). */
  function OwnerOf(c: Config, slot: Response, k: nat): int
    requires c.respSize > 0
  {
    if c.dispatcherSrq then SlotIndex(c.respBase, c.respSize, slot.senderNodeId) else k
  }

  /** One step of BenchmarkDispatcher::run. */
  function Dispatch(c: Config, s: State, stop: bool): State
    requires WellFormed(c) && Shape(c, s)
  {
    match s.dpc
    case Top => s.(dpc := if s.running then Scan(0) else Halted)
    case Scan(k) =>
      if k < c.workers then
        if s.reqSlots[k].kind == EMPTY || s.transfered[k] then s.(dpc := Scan(k + 1)) else s.(dpc := Forward(k))
      else
        s.(dpc := if c.dispatcherSrq then PollQueue([]) else PollFlag(0))
    case Forward(k) =>
      var m := s.reqSlots[k];
      s.(reqWire := s.reqWire + multiset{RequestPacket(m.padNode, m.padPtr, m)},
         dispatched := s.dispatched + 1, transfered := s.transfered[k := true], dpc := Scan(k + 1))
    case PollFlag(k) =>
      if k < c.workers then
        s.(dpc := if s.respSlots[k].transferFlag != 1 then PollFlag(k + 1) else ClearFlag(k))
      else
        s.(dpc := Top)
    case ClearFlag(k) =>
      s.(respSlots := s.respSlots[k := s.respSlots[k].(transferFlag := 0)], dpc := Handle([k], 0))
    case PollQueue(batch) =>
      if s.dCq != [] && |batch| < BATCH && (batch == [] || !stop) then
        s.(dCq := s.dCq[1..], dpc := PollQueue(batch + [s.dCq[0]]))
      else
        s.(dpc := if batch == [] then Top else Handle(batch, 0))
    case Handle(batch, j) =>
      if j < |batch| then
        assert batch[j] in batch;
        var owner := OwnerOf(c, s.respSlots[batch[j]], batch[j]);
        var s1 := s.(received := s.received + 1);
        if 0 <= owner < c.workers && s.transfered[owner] then
          s1.(transfered := s.transfered[owner := false], dpc := EmptySlot(batch, j, owner))
        else
          s1.(errors := s.errors + {NotTransfered}, dpc := Handle(batch, j + 1))
      else
        s.(dpc := Top)
    case EmptySlot(batch, j, w) =>
      s.(reqSlots := s.reqSlots[w := s.reqSlots[w].(kind := EMPTY)], dpc := FlipMailbox(batch, j, w))
    case FlipMailbox(batch, j, w) =>
      if s.mailboxes[w] == 0 then
        s.(mailboxes := s.mailboxes[w := 1],
           dpc := if c.dispatcherSrq then Repost(batch, j, w) else Handle(batch, j + 1))
      else
        s.(errors := s.errors + {CasFailed})
    case Repost(batch, j, w) =>
      s.(dPosted := s.dPosted + [batch[j]], dpc := Handle(batch, j + 1))
    case Halted => s
  }

  /** One step of BenchmarkReceiver::benchmarkPhase and poll. */
  function Receive(c: Config, rc: Receiver): Receiver
    requires WellFormed(c) && ReceiverShape(c, rc)
  {
    match rc.pc
    case Poll(pos) =>
      if c.receiverSrq then
        if rc.cq == [] then rc else rc.(cq := rc.cq[1..], pc := Test(rc.cq[0]))
      else if rc.mem[pos].kind == EMPTY then
        rc.(pc := Poll(if pos + 1 < BufferLength(c) then pos + 1 else 0))
      else
        rc.(pc := Test(pos))
    case Test(b) =>
      if rc.mem[b].kind == ExpMsg then rc.(pc := Build(b))
      else if rc.mem[b].kind == FinishedExp then
        rc.(finished := rc.finished + 1,
            pc := if rc.finished + 1 == c.workers then Returned
                  else if c.receiverSrq then Poll(0) else ClearFinish(b))
      else rc.(pc := Poll(0))
    case Build(b) =>
      var m := rc.mem[b];
      rc.(responses := rc.responses[m.id := Response(m.rdmaPtr, m.id, 1)],
          pc := if c.receiverSrq then Transfer(b) else Release(b))
    case Release(b) =>
      rc.(mem := rc.mem[b := rc.mem[b].(kind := EMPTY)], pc := Transfer(b))
    case Transfer(b) =>
      if c.receiverSrq then rc.(pc := Refill(b)) else rc.(pc := Poll(0), handled := rc.handled + 1)
    case Refill(b) =>
      rc.(posted := rc.posted + [b], handled := rc.handled + 1, pc := Poll(0))
    case ClearFinish(b) =>
      rc.(mem := rc.mem[b := rc.mem[b].(kind := EMPTY)], pc := Poll(0))
    case Returned => rc
  }

  /** What that step posts: the response, addressed with the request fields as they are in memory now. */
  function Posts(rc: Receiver, r: nat): multiset<ResponsePacket>
    requires rc.pc.Transfer? ==> rc.pc.b < |rc.mem|
  {
    if rc.pc.Transfer? then
      var m := rc.mem[rc.pc.b];
      multiset{ResponsePacket(r, m.id, m.destinationNodeID, m.rdmaPtr, m.origin)}
    else
      multiset{}
  }

  function ArriveRequest(c: Config, s: State, p: RequestPacket): State
    requires WellFormed(c) && Shape(c, s)
  {
    if p.to >= c.receivers then s.(errors := s.errors + {BadAddress})
    else
      var rc := s.receivers[p.to];
      if c.receiverSrq then
        if rc.posted == [] then s.(errors := s.errors + {ReceiverNotReady})
        else
          var b := rc.posted[0];
          assert b in rc.posted;
          s.(receivers := s.receivers[p.to :=
            rc.(posted := rc.posted[1..], cq := rc.cq + [b], mem := rc.mem[b := p.body])])
      else
        var b := SlotIndex(c.reqBases[p.to], MESSAGE_SIZE, p.addr);
        if 0 <= b < BufferLength(c) then
          s.(receivers := s.receivers[p.to := rc.(mem := rc.mem[b := p.body])],
             errors := if rc.mem[b].kind == EMPTY then s.errors else s.errors + {Overwritten})
        else
          s.(errors := s.errors + {BadAddress})
  }

  function Fetched(s: State, p: ResponsePacket): Response {
    if p.from < |s.receivers| && p.slot in s.receivers[p.from].responses
    then s.receivers[p.from].responses[p.slot]
    else ZERO_RESPONSE
  }

  function ArriveResponse(c: Config, s: State, p: ResponsePacket): State
    requires WellFormed(c) && Shape(c, s)
  {
    if p.to != c.dispatcherId then s.(errors := s.errors + {BadAddress})
    else if c.dispatcherSrq then
      if s.dPosted == [] || s.dPosted[0] >= c.workers then s.(errors := s.errors + {ReceiverNotReady})
      else
        var k := s.dPosted[0];
        s.(dPosted := s.dPosted[1..], dCq := s.dCq + [k], respSlots := s.respSlots[k := Fetched(s, p)])
    else
      var k := SlotIndex(c.respBase, c.respSize, p.addr);
      if 0 <= k < c.workers then
        s.(respSlots := s.respSlots[k := Fetched(s, p)],
           errors := if s.respSlots[k].transferFlag != 1 then s.errors else s.errors + {Overwritten})
      else
        s.(errors := s.errors + {BadAddress})
  }
}
