/**
 The inductive invariant of the dispatcher protocol. `History` says for every worker how many
 requests it has completed, where its one outstanding request is, and where its finish message for
 each receiver is. The invariant ties each of these places to the shared memory in both directions:
 the place really holds the message, and every message found anywhere is the one the history names.
 */
module ProtocolInvariant {
  import opened Sums
  import opened Partition
  import opened Protocol

  /** Where a worker's request (or its response) is. */
  datatype Stage =
    | Home                          // nothing outstanding
    | Own | Picked                  // in the worker's slot, seen or not by the dispatcher's scan
    | ReqWire | InBuf(r: nat, b: nat) | Busy(r: nat, b: nat)
    | RespWire(r: nat)
    | Landed(k: nat) | Taken(k: nat)
    | Clearing | Mailing | Mail

  datatype FinishStage = FNone | FWire | FBuf(b: nat) | FBusy(b: nat) | FCounted

  datatype History = History(done: seq<nat>, stage: seq<Stage>, fin: seq<seq<FinishStage>>)

  ghost predicate HistoryShape(c: Config, a: History) {
    && |a.done| == |a.stage| == |a.fin| == c.workers
    && (forall w :: 0 <= w < c.workers ==> |a.fin[w]| == c.receivers)
    && (forall w :: 0 <= w < c.workers ==> a.done[w] + (if a.stage[w].Home? then 0 else 1) <= c.requests)
    && (forall w, r :: 0 <= w < c.workers && 0 <= r < c.receivers && !a.fin[w][r].FNone? ==> a.stage[w].Home?)
    && (forall w :: 0 <= w < c.workers && (a.stage[w].InBuf? || a.stage[w].Busy? || a.stage[w].RespWire?) ==>
          a.stage[w].r < c.receivers)
  }

  /* ---- workers ---- */

  function Index(c: Config, pc: WorkerPc): nat {
    match pc
    case Fill(i) => i
    case Publish(i) => i
    case Spin(i) => i
    case _ => c.requests
  }

  /** Worker w's slot, mailbox and `transfered` flag agree with where its request is. */
  ghost predicate WorkerFlags(c: Config, w: nat, pc: WorkerPc, done: nat, st: Stage, slot: Message,
                              transfered: bool, mail: nat, dpc: DispatcherPc)
    requires WellFormed(c) && w < c.workers
  {
    && Index(c, pc) == done
    && (pc.Publish? ==> done < c.requests)
    && (pc.Spin? <==> !st.Home?)
    && ((pc.Publish? || pc.Spin?) && done < c.requests ==> slot.(kind := ExpMsg) == Request(c, w, done))
    && slot.kind == (if st.Home? || st.Mailing? || st.Mail? then EMPTY else ExpMsg)
    && (transfered <==>
        st.ReqWire? || st.InBuf? || st.Busy? || st.RespWire? || st.Landed? || st.Taken?)
    && mail == (if st.Mail? then 1 else 0)
    && (st.Picked? <==> dpc == Forward(w))
    && (st.Clearing? <==> dpc.EmptySlot? && dpc.w == w)
    && (st.Mailing? <==> dpc.FlipMailbox? && dpc.w == w)
    && (dpc.Repost? && dpc.w == w ==> st.Home? || st.Own? || st.Mail?)
  }

  /** Exactly the receivers the finalize loop has passed have been sent a finish message. */
  ghost predicate FinishFlags(c: Config, pc: WorkerPc, row: seq<FinishStage>)
    requires |row| == c.receivers
  {
    && (pc.Finalize? ==> pc.k <= c.receivers)
    && forall r :: 0 <= r < c.receivers ==>
         (!row[r].FNone? <==> pc.Finished? || (pc.Finalize? && r < pc.k))
  }

  /* ---- receivers ---- */

  predicate Holds(pc: ReceiverPc, b: nat) {
    !pc.Poll? && !pc.Returned? && pc.b == b
  }

  /** A receive buffer with a message the receiver has not started on. */
  predicate Unread(c: Config, rc: Receiver, b: nat) {
    if c.receiverSrq then b in rc.cq
    else b < |rc.mem| && rc.mem[b].kind != EMPTY && !Holds(rc.pc, b) && !rc.pc.Returned?
  }

  function Reply(c: Config, w: nat, i: nat): Response
    requires WellFormed(c) && w < c.workers && i < c.requests
  {
    Response(SlotAddress(c.respBase, c.respSize, w), ResponseId(c, w, i), 1)
  }

  ghost predicate Answers(c: Config, rc: Receiver, w: nat, i: nat)
    requires WellFormed(c) && w < c.workers && i < c.requests
  {
    ResponseId(c, w, i) in rc.responses && rc.responses[ResponseId(c, w, i)] == Reply(c, w, i)
  }

  /** The receiver place the history names holds worker w's request. */
  ghost predicate ReceiverPlace(c: Config, w: nat, i: nat, st: Stage, r: nat, rc: Receiver)
    requires WellFormed(c) && ReceiverShape(c, rc) && w < c.workers && i < c.requests
  {
    match st
    case InBuf(r', b) =>
      r' == r ==> r == Target(c, w, i) && b < BufferLength(c) && Unread(c, rc, b) && rc.mem[b].origin == w
                  && rc.mem[b].kind == ExpMsg
    case Busy(r', b) =>
      r' == r ==>
        && r == Target(c, w, i)
        && (rc.pc.Test? || rc.pc.Build? || rc.pc.Release? || rc.pc.Transfer?) && rc.pc.b == b
        && rc.mem[b].origin == w && rc.mem[b].kind != FinishedExp
    case RespWire(r') => r' == r ==> r == Target(c, w, i) && Answers(c, rc, w, i)
    case _ => true
  }

  /** The receiver place the history names holds worker w's finish message. */
  ghost predicate FinishPlace(c: Config, w: nat, f: FinishStage, rc: Receiver)
    requires WellFormed(c) && ReceiverShape(c, rc)
  {
    match f
    case FBuf(b) =>
      b < BufferLength(c) && Unread(c, rc, b) && rc.mem[b].origin == w && rc.mem[b].kind == FinishedExp
    case FBusy(b) => rc.pc == Test(b) && rc.mem[b].origin == w && rc.mem[b].kind == FinishedExp
    case _ => true
  }

  ghost predicate IsRequestOf(c: Config, a: History, m: Message, w: nat)
    requires WellFormed(c) && HistoryShape(c, a) && w < c.workers
  {
    a.done[w] < c.requests && m == Request(c, w, a.done[w])
  }

  /** An unread buffer holds the message of exactly the worker whose history points here. */
  ghost predicate UnreadOk(c: Config, a: History, r: nat, rc: Receiver, b: nat)
    requires WellFormed(c) && HistoryShape(c, a) && r < c.receivers && |rc.mem| == BufferLength(c)
    requires b < BufferLength(c)
  {
    Unread(c, rc, b) ==>
      var m := rc.mem[b];
      && m.origin < c.workers
      && (!c.receiverSrq ==> b == c.nodeIds[m.origin])
      && ((IsRequestOf(c, a, m, m.origin) && a.stage[m.origin] == InBuf(r, b))
          || (m == FinishMessage(m.origin) && a.fin[m.origin][r] == FBuf(b)))
  }

  /** What the receiver's program counter promises about the message it holds. */
  ghost predicate ReceiverPcOk(c: Config, a: History, r: nat, rc: Receiver)
    requires WellFormed(c) && HistoryShape(c, a) && r < c.receivers && ReceiverShape(c, rc)
  {
    if rc.pc.Poll? || rc.pc.Returned? || rc.pc.Refill? then true
    else
      var m := rc.mem[rc.pc.b];
      && m.origin < c.workers
      && (!c.receiverSrq ==> rc.pc.b == c.nodeIds[m.origin])
      && match rc.pc
         case Test(b) =>
           || (IsRequestOf(c, a, m, m.origin) && a.stage[m.origin] == Busy(r, b))
           || (m == FinishMessage(m.origin) && a.fin[m.origin][r] == FBusy(b))
         case Build(b) => IsRequestOf(c, a, m, m.origin) && a.stage[m.origin] == Busy(r, b)
         case Release(b) =>
           && IsRequestOf(c, a, m, m.origin) && a.stage[m.origin] == Busy(r, b)
           && Answers(c, rc, m.origin, a.done[m.origin])
         case Transfer(b) =>
           && m.kind == (if c.receiverSrq then ExpMsg else EMPTY)
           && IsRequestOf(c, a, m.(kind := ExpMsg), m.origin) && a.stage[m.origin] == Busy(r, b)
           && Answers(c, rc, m.origin, a.done[m.origin])
         case ClearFinish(b) => m == FinishMessage(m.origin) && a.fin[m.origin][r] == FCounted
         case _ => true
  }

  function HeldByReceiver(pc: ReceiverPc): seq<nat> {
    if pc.Poll? || pc.Returned? then [] else [pc.b]
  }

  ghost predicate Distinct(ms: multiset<nat>) {
    forall x :: x in ms ==> ms[x] == 1
  }

  ghost predicate ReceiverQueuesOk(c: Config, rc: Receiver) {
    if c.receiverSrq
    then !rc.pc.Release? && !rc.pc.ClearFinish? && Distinct(multiset(rc.posted) + multiset(rc.cq) + multiset(HeldByReceiver(rc.pc)))
    else rc.posted == [] && rc.cq == [] && !rc.pc.Refill?
  }

  ghost predicate ReceiverOk(c: Config, a: History, r: nat, rc: Receiver)
    requires WellFormed(c) && HistoryShape(c, a) && r < c.receivers && ReceiverShape(c, rc)
  {
    && ReceiverPcOk(c, a, r, rc)
    && ReceiverQueuesOk(c, rc)
    && (forall b :: 0 <= b < BufferLength(c) ==> UnreadOk(c, a, r, rc, b))
  }

  /* ---- the network ---- */

  function ForwardedPacket(c: Config, w: nat, i: nat): RequestPacket
    requires WellFormed(c) && w < c.workers && i < c.requests
  {
    var m := Request(c, w, i);
    RequestPacket(m.padNode, m.padPtr, m)
  }

  function ReplyPacket(c: Config, w: nat, i: nat): ResponsePacket
    requires WellFormed(c) && w < c.workers && i < c.requests
  {
    var m := Request(c, w, i);
    ResponsePacket(m.padNode, m.id, m.destinationNodeID, m.rdmaPtr, w)
  }

  ghost predicate RequestPacketOk(c: Config, a: History, p: RequestPacket)
    requires WellFormed(c) && HistoryShape(c, a)
  {
    && p.body.origin < c.workers && p.to < c.receivers
    && ((IsRequestOf(c, a, p.body, p.body.origin) && a.stage[p.body.origin] == ReqWire
         && p == ForwardedPacket(c, p.body.origin, a.done[p.body.origin]))
        || (p == FinishPacket(c, p.body.origin, p.to) && a.fin[p.body.origin][p.to] == FWire))
  }

  ghost predicate RequestWireOk(c: Config, a: History, wire: multiset<RequestPacket>)
    requires WellFormed(c) && HistoryShape(c, a)
  {
    && (forall p :: p in wire ==> RequestPacketOk(c, a, p))
    && (forall w :: 0 <= w < c.workers && a.stage[w].ReqWire? ==> wire[ForwardedPacket(c, w, a.done[w])] == 1)
    && (forall w, r :: 0 <= w < c.workers && 0 <= r < c.receivers && a.fin[w][r].FWire? ==>
          wire[FinishPacket(c, w, r)] == 1)
  }

  ghost predicate ResponsePacketOk(c: Config, a: History, p: ResponsePacket)
    requires WellFormed(c) && HistoryShape(c, a)
  {
    && p.origin < c.workers && a.stage[p.origin] == RespWire(p.from)
    && p == ReplyPacket(c, p.origin, a.done[p.origin])
  }

  ghost predicate ResponseWireOk(c: Config, a: History, wire: multiset<ResponsePacket>)
    requires WellFormed(c) && HistoryShape(c, a)
  {
    && (forall p :: p in wire ==> ResponsePacketOk(c, a, p))
    && (forall w :: 0 <= w < c.workers && a.stage[w].RespWire? ==> wire[ReplyPacket(c, w, a.done[w])] == 1)
  }

  /* ---- the dispatcher ---- */

  /** Landed responses the dispatcher has taken and not yet handled. */
  function Pending(pc: DispatcherPc): seq<nat>
    requires pc.Handle? ==> pc.j <= |pc.batch|
    requires pc.EmptySlot? || pc.FlipMailbox? || pc.Repost? ==> pc.j < |pc.batch|
  {
    match pc
    case ClearFlag(k) => [k]
    case PollQueue(batch) => batch
    case Handle(batch, j) => batch[j..]
    case EmptySlot(batch, j, _) => batch[j + 1..]
    case FlipMailbox(batch, j, _) => batch[j + 1..]
    case Repost(batch, j, _) => batch[j + 1..]
    case _ => []
  }

  /** Response buffers out of the posted queue: the pending ones and the one being handled. */
  function HeldBuffers(pc: DispatcherPc): seq<nat>
    requires pc.Handle? ==> pc.j <= |pc.batch|
    requires pc.EmptySlot? || pc.FlipMailbox? || pc.Repost? ==> pc.j < |pc.batch|
  {
    match pc
    case EmptySlot(batch, j, _) => batch[j..]
    case FlipMailbox(batch, j, _) => batch[j..]
    case Repost(batch, j, _) => batch[j..]
    case _ => Pending(pc)
  }

  /** Response slot k holds a response the dispatcher has not taken. */
  predicate IsLanded(c: Config, dpc: DispatcherPc, dCq: seq<nat>, slot: Response, k: nat) {
    if c.dispatcherSrq then k in dCq else slot.transferFlag == 1 && dpc != ClearFlag(k)
  }

  /** The response slot the history names holds worker w's response. */
  ghost predicate DispatcherPlace(c: Config, w: nat, i: nat, st: Stage, dpc: DispatcherPc, dCq: seq<nat>,
                                  slots: seq<Response>)
    requires WellFormed(c) && w < c.workers && i < c.requests && |slots| == c.workers && DispatcherShape(c, dpc)
  {
    match st
    case Landed(k) =>
      && k < c.workers && OwnerOf(c, slots[k], k) == w && IsLanded(c, dpc, dCq, slots[k], k)
      && slots[k] == Reply(c, w, i)
    case Taken(k) =>
      && k < c.workers && OwnerOf(c, slots[k], k) == w && k in Pending(dpc)
      && slots[k].(transferFlag := 1) == Reply(c, w, i)
    case _ => true
  }

  /** A landed or taken response points back to its worker. */
  ghost predicate SlotOk(c: Config, a: History, dpc: DispatcherPc, dCq: seq<nat>, slot: Response, k: nat)
    requires WellFormed(c) && HistoryShape(c, a) && DispatcherShape(c, dpc)
  {
    && (IsLanded(c, dpc, dCq, slot, k) ==>
        0 <= OwnerOf(c, slot, k) < c.workers && a.stage[OwnerOf(c, slot, k)] == Landed(k))
    && (k in Pending(dpc) ==>
        0 <= OwnerOf(c, slot, k) < c.workers && a.stage[OwnerOf(c, slot, k)] == Taken(k))
  }

  ghost predicate DispatcherQueuesOk(c: Config, dpc: DispatcherPc, dPosted: seq<nat>, dCq: seq<nat>)
    requires DispatcherShape(c, dpc)
  {
    if c.dispatcherSrq
    then !dpc.PollFlag? && !dpc.ClearFlag? && Distinct(multiset(dPosted) + multiset(dCq) + multiset(HeldBuffers(dpc)))
         && (forall k :: k in dPosted ==> k < c.workers)
    else !dpc.PollQueue? && !dpc.Repost? && dPosted == [] && dCq == [] && |HeldBuffers(dpc)| <= 1
  }

  ghost predicate DispatcherOk(c: Config, a: History, dpc: DispatcherPc, dPosted: seq<nat>, dCq: seq<nat>,
                               slots: seq<Response>)
    requires WellFormed(c) && HistoryShape(c, a) && DispatcherShape(c, dpc) && |slots| == c.workers
  {
    && DispatcherQueuesOk(c, dpc, dPosted, dCq)
    && (forall k :: 0 <= k < c.workers ==> SlotOk(c, a, dpc, dCq, slots[k], k))
    && (forall w :: 0 <= w < c.workers && a.done[w] < c.requests ==>
          DispatcherPlace(c, w, a.done[w], a.stage[w], dpc, dCq, slots))
  }

  /* ---- phases ---- */

  ghost predicate PhaseOk(s: State) {
    && (forall w :: 0 <= w < |s.workers| && (s.workers[w].Finalize? || s.workers[w].Finished?) ==> AllArrived(s))
    && (!s.running ==> AllFinished(s))
    && (s.dpc.Halted? ==> !s.running)
  }

  /* ---- counting ---- */

  function B2I(b: bool): int { if b then 1 else 0 }

  /** Does a worker's request or finish message occupy a receive buffer of r? */
  function Occupies(st: Stage, f: FinishStage, r: nat): int {
    B2I(((st.InBuf? || st.Busy?) && st.r == r) || f.FBuf? || f.FBusy? || f.FCounted?)
  }

  /** Does a worker's response occupy a response buffer of the dispatcher? */
  function Lands(st: Stage): int {
    B2I(st.Landed? || st.Taken? || st.Clearing? || st.Mailing?)
  }

  /** Requests of worker w addressed to r among its first n. */
  function Hits(c: Config, w: nat, r: nat, n: nat): nat
    requires WellFormed(c) && w < c.workers && n <= c.requests
  {
    if n == 0 then 0 else Hits(c, w, r, n - 1) + if Target(c, w, n - 1) == r then 1 else 0
  }

  function Answered(st: Stage): nat {
    if st.RespWire? || st.Landed? || st.Taken? || st.Clearing? || st.Mailing? || st.Mail? then 1 else 0
  }

  function Forwarded(st: Stage): nat {
    if st.Home? || st.Own? || st.Picked? then 0 else 1
  }

  function Collected(st: Stage): nat {
    if st.Clearing? || st.Mailing? || st.Mail? then 1 else 0
  }

  ghost function OccupySeq(c: Config, a: History, r: nat): (q: seq<int>)
    requires HistoryShape(c, a) && r < c.receivers
  {
    seq(c.workers, w requires 0 <= w < c.workers => Occupies(a.stage[w], a.fin[w][r], r))
  }

  ghost function CountedSeq(c: Config, a: History, r: nat): (q: seq<int>)
    requires HistoryShape(c, a) && r < c.receivers
  {
    seq(c.workers, w requires 0 <= w < c.workers => B2I(a.fin[w][r].FCounted?))
  }

  ghost function LandSeq(c: Config, a: History): (q: seq<int>)
    requires HistoryShape(c, a)
  {
    seq(c.workers, w requires 0 <= w < c.workers => Lands(a.stage[w]))
  }

  ghost function HitSeq(c: Config, a: History, r: nat): (q: seq<int>)
    requires WellFormed(c) && HistoryShape(c, a)
  {
    seq(c.workers, w requires 0 <= w < c.workers => Hits(c, w, r, a.done[w] + Answered(a.stage[w])))
  }

  ghost function ForwardedSeq(c: Config, a: History): (q: seq<int>)
    requires HistoryShape(c, a)
  {
    seq(c.workers, w requires 0 <= w < c.workers => a.done[w] + Forwarded(a.stage[w]))
  }

  ghost function CollectedSeq(c: Config, a: History): (q: seq<int>)
    requires HistoryShape(c, a)
  {
    seq(c.workers, w requires 0 <= w < c.workers => a.done[w] + Collected(a.stage[w]))
  }

  /** Receive buffers, handled requests and counted finish messages of receiver r add up. */
  ghost predicate ReceiverCounts(c: Config, a: History, r: nat, rc: Receiver)
    requires WellFormed(c) && HistoryShape(c, a) && r < c.receivers
  {
    && rc.finished == Total(CountedSeq(c, a, r))
    && (rc.pc.Returned? <==> rc.finished == c.workers)
    && rc.handled + B2I(rc.pc.Refill?) == Total(HitSeq(c, a, r))
    && (c.receiverSrq ==>
        && |rc.posted| + |rc.cq| + |HeldByReceiver(rc.pc)| + rc.finished == BufferLength(c)
        && |rc.cq| + B2I(rc.pc.Test? || rc.pc.Build? || rc.pc.Transfer?) + rc.finished
           == Total(OccupySeq(c, a, r)))
  }

  ghost predicate DispatcherCounts(c: Config, a: History, dispatched: nat, received: nat, dpc: DispatcherPc,
                                   dPosted: seq<nat>, dCq: seq<nat>)
    requires WellFormed(c) && HistoryShape(c, a) && DispatcherShape(c, dpc)
  {
    && dispatched == Total(ForwardedSeq(c, a))
    && received == Total(CollectedSeq(c, a))
    && (c.dispatcherSrq ==>
        && |dPosted| + |dCq| + |HeldBuffers(dpc)| == c.workers
        && |dCq| + |HeldBuffers(dpc)| - B2I(dpc.Repost?) == Total(LandSeq(c, a)))
  }

  /* ---- all of it ---- */

  ghost predicate WorkersOk(c: Config, s: State, a: History)
    requires WellFormed(c) && Shape(c, s) && HistoryShape(c, a)
  {
    && (forall w :: 0 <= w < c.workers ==>
          WorkerFlags(c, w, s.workers[w], a.done[w], a.stage[w], s.reqSlots[w], s.transfered[w], s.mailboxes[w], s.dpc))
    && (forall w :: 0 <= w < c.workers ==> FinishFlags(c, s.workers[w], a.fin[w]))
  }

  ghost predicate ReceiverPlaces(c: Config, a: History, r: nat, rc: Receiver)
    requires WellFormed(c) && HistoryShape(c, a) && r < c.receivers && ReceiverShape(c, rc)
  {
    && (forall w :: 0 <= w < c.workers && a.done[w] < c.requests ==>
          ReceiverPlace(c, w, a.done[w], a.stage[w], r, rc))
    && (forall w :: 0 <= w < c.workers ==> FinishPlace(c, w, a.fin[w][r], rc))
  }

  ghost predicate ReceiverAll(c: Config, a: History, r: nat, rc: Receiver)
    requires WellFormed(c) && HistoryShape(c, a) && r < c.receivers && ReceiverShape(c, rc)
  {
    && ReceiverOk(c, a, r, rc)
    && ReceiverPlaces(c, a, r, rc)
    && ReceiverCounts(c, a, r, rc)
  }

  ghost predicate Inv(c: Config, s: State, a: History)
    requires WellFormed(c)
  {
    && Shape(c, s) && HistoryShape(c, a)
    && WorkersOk(c, s, a)
    && (forall r :: 0 <= r < c.receivers ==> ReceiverAll(c, a, r, s.receivers[r]))
    && RequestWireOk(c, a, s.reqWire)
    && ResponseWireOk(c, a, s.respWire)
    && DispatcherOk(c, a, s.dpc, s.dPosted, s.dCq, s.respSlots)
    && DispatcherCounts(c, a, s.dispatched, s.received, s.dpc, s.dPosted, s.dCq)
    && PhaseOk(s)
    && s.errors == {}
  }

  /* ---- how the history follows the steps ---- */

  function SetStage(a: History, w: int, st: Stage): History {
    if 0 <= w < |a.stage| then a.(stage := a.stage[w := st]) else a
  }

  function SetFinish(a: History, w: nat, r: nat, f: FinishStage): History {
    if w < |a.fin| && r < |a.fin[w]| then a.(fin := a.fin[w := a.fin[w][r := f]]) else a
  }

  function AfterWork(c: Config, s: State, a: History, w: nat): History
    requires WellFormed(c) && Shape(c, s) && w < c.workers && HistoryShape(c, a)
  {
    match s.workers[w]
    case Publish(_) => SetStage(a, w, Own)
    case Spin(_) =>
      if s.mailboxes[w] == 1 then SetStage(a, w, Home).(done := a.done[w := a.done[w] + 1]) else a
    case Finalize(k) => if k < c.receivers then SetFinish(a, w, k, FWire) else a
    case _ => a
  }

  function AfterDispatch(c: Config, s: State, a: History, stop: bool): History
    requires WellFormed(c) && Shape(c, s)
  {
    match s.dpc
    case Scan(k) =>
      if k < c.workers && s.reqSlots[k].kind != EMPTY && !s.transfered[k] then SetStage(a, k, Picked) else a
    case Forward(k) => SetStage(a, k, ReqWire)
    case PollFlag(k) => if k < c.workers && s.respSlots[k].transferFlag == 1 then SetStage(a, k, Taken(k)) else a
    case PollQueue(batch) =>
      if s.dCq != [] && |batch| < BATCH && (batch == [] || !stop) then
        assert s.dCq[0] in s.dCq;
        SetStage(a, OwnerOf(c, s.respSlots[s.dCq[0]], s.dCq[0]), Taken(s.dCq[0]))
      else a
    case Handle(batch, j) =>
      if j < |batch| then
        assert batch[j] in batch;
        SetStage(a, OwnerOf(c, s.respSlots[batch[j]], batch[j]), Clearing)
      else a
    case EmptySlot(_, _, w) => SetStage(a, w, Mailing)
    case FlipMailbox(_, _, w) => SetStage(a, w, Mail)
    case _ => a
  }

  function AfterReceive(c: Config, a: History, r: nat, rc: Receiver): History
    requires WellFormed(c) && ReceiverShape(c, rc)
  {
    match rc.pc
    case Poll(pos) =>
      var pc := Receive(c, rc).pc;
      assert c.receiverSrq && rc.cq != [] ==> rc.cq[0] in rc.cq;
      if !pc.Test? then a
      else if rc.mem[pc.b].kind == ExpMsg then SetStage(a, rc.mem[pc.b].origin, Busy(r, pc.b))
      else SetFinish(a, rc.mem[pc.b].origin, r, FBusy(pc.b))
    case Test(b) => if rc.mem[b].kind == ExpMsg then a else SetFinish(a, rc.mem[b].origin, r, FCounted)
    case Transfer(b) => SetStage(a, rc.mem[b].origin, RespWire(r))
    case _ => a
  }

  function AfterRequest(c: Config, s: State, a: History, p: RequestPacket): History
    requires WellFormed(c) && Shape(c, s)
  {
    if p.to < c.receivers && p.body.origin < c.workers then
      var b := BufferFor(c, s.receivers[p.to], p.body.origin);
      if p.body.kind == ExpMsg then SetStage(a, p.body.origin, InBuf(p.to, b))
      else SetFinish(a, p.body.origin, p.to, FBuf(b))
    else a
  }

  /** The receive buffer an arriving message of worker w gets. */
  function BufferFor(c: Config, rc: Receiver, w: nat): nat
    requires WellFormed(c) && w < c.workers
  {
    if c.receiverSrq then (if rc.posted == [] then 0 else rc.posted[0]) else c.nodeIds[w]
  }

  /** The response buffer an arriving response of worker w gets. */
  function SlotFor(c: Config, s: State, w: nat): nat {
    if c.dispatcherSrq then (if s.dPosted == [] then 0 else s.dPosted[0]) else w
  }

  /** The history after a step. */
  function HistoryAfter(c: Config, s: State, a: History, step: Step): History
    requires WellFormed(c) && Shape(c, s) && HistoryShape(c, a) && Enabled(c, s, step)
  {
    match step
    case WorkerStep(w) => AfterWork(c, s, a, w)
    case DispatcherStep(stop) => AfterDispatch(c, s, a, stop)
    case ReceiverStep(r) => AfterReceive(c, a, r, s.receivers[r])
    case MainStep => a
    case DeliverRequest(p) => AfterRequest(c, s, a, p)
    case DeliverResponse(p) => SetStage(a, p.origin, Landed(SlotFor(c, s, p.origin)))
  }
}
