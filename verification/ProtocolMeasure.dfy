/**
 A measure of the work left in a run. Every step that is not an empty poll makes it smaller, so a run
 contains only so many such steps, however the threads are interleaved.
 */
module ProtocolMeasure {
  import opened Sums
  import opened Partition
  import opened Protocol
  import opened ProtocolInvariant
  import opened ProtocolFrames
  import opened ProtocolWorkerSteps
  import opened ProtocolReceiverSteps
  import opened ProtocolSafety

  /** Polls that find nothing: a mailbox not yet flipped, an empty slot, flag or completion queue, a loop turn. */
  ghost predicate Idle(c: Config, s: State, step: Step)
    requires WellFormed(c) && Shape(c, s)
  {
    match step
    case WorkerStep(w) => w < c.workers && s.workers[w].Spin? && s.mailboxes[w] != 1
    case DispatcherStep(_) => IdleDispatch(c, s)
    case ReceiverStep(r) => r < c.receivers && s.receivers[r].pc.Poll? && Receive(c, s.receivers[r]).pc.Poll?
    case _ => false
  }

  ghost predicate IdleDispatch(c: Config, s: State)
    requires WellFormed(c) && Shape(c, s)
  {
    match s.dpc
    case Top => s.running
    case Scan(k) => !(k < c.workers && s.reqSlots[k].kind != EMPTY && !s.transfered[k])
    case PollFlag(k) => !(k < c.workers && s.respSlots[k].transferFlag == 1)
    case PollQueue(batch) => batch == [] && s.dCq == []
    case _ => false
  }

  /* ---- ranks ---- */

  function StageRank(st: Stage): nat {
    match st
    case Home => 0
    case Own => 1
    case Picked => 2
    case ReqWire => 3
    case InBuf(_, _) => 4
    case Busy(_, _) => 5
    case RespWire(_) => 6
    case Landed(_) => 7
    case Taken(_) => 8
    case Clearing => 9
    case Mailing => 10
    case Mail => 11
  }

  function WorkerRank(c: Config, pc: WorkerPc, st: Stage): int {
    var base := 50 * c.receivers + 20;
    match pc
    case Fill(i) => 200 * (c.requests - i) + base + 10
    case Publish(i) => 200 * (c.requests - i) + base - 5
    case Spin(i) => 200 * (c.requests - i) + base - 10 * StageRank(st)
    case AtBarrier => base
    case Finalize(k) => 50 * (c.receivers - k) + 10
    case Finished => 0
  }

  function FinishRank(f: FinishStage): int {
    match f
    case FNone => 0
    case FWire => 40
    case FBuf(_) => 30
    case FBusy(_) => 20
    case FCounted => 0
  }

  function ReceiverRank(pc: ReceiverPc): int {
    match pc
    case Poll(_) => 0
    case Returned => 0
    case Test(_) => 5
    case Build(_) => 4
    case Release(_) => 3
    case Transfer(_) => 2
    case Refill(_) => 1
    case ClearFinish(_) => 1
  }

  function DispatcherRank(pc: DispatcherPc): int {
    match pc
    case Halted => 0
    case Forward(_) => 2
    case ClearFlag(_) => 8
    case PollQueue(batch) => if batch == [] then 1 else 5 * |batch| + 3
    case Handle(batch, j) => 5 * (|batch| - j) + 2
    case EmptySlot(batch, j, _) => 5 * (|batch| - j) + 1
    case FlipMailbox(batch, j, _) => 5 * (|batch| - j)
    case Repost(batch, j, _) => 5 * (|batch| - j) - 1
    case _ => 1
  }

  ghost function RowRanks(c: Config, row: seq<FinishStage>): seq<int> {
    seq(|row|, r requires 0 <= r < |row| => FinishRank(row[r]))
  }

  /** Work left for one worker, with its finish messages. */
  ghost function Standing(c: Config, pc: WorkerPc, st: Stage, row: seq<FinishStage>): int {
    WorkerRank(c, pc, st) + Total(RowRanks(c, row))
  }

  ghost function Standings(c: Config, workers: seq<WorkerPc>, a: History): seq<int>
    requires HistoryShape(c, a) && |workers| == c.workers
  {
    seq(c.workers, w requires 0 <= w < c.workers => Standing(c, workers[w], a.stage[w], a.fin[w]))
  }

  ghost function ReceiverRanks(rcs: seq<Receiver>): seq<int> {
    seq(|rcs|, r requires 0 <= r < |rcs| => ReceiverRank(rcs[r].pc))
  }

  ghost function Measure(c: Config, s: State, a: History): int
    requires WellFormed(c) && Shape(c, s) && HistoryShape(c, a)
  {
    Total(Standings(c, s.workers, a)) + Total(ReceiverRanks(s.receivers)) + DispatcherRank(s.dpc) + B2I(s.running)
  }

  /* ---- how the parts change ---- */

  lemma StandingsChange(c: Config, ws: seq<WorkerPc>, ws': seq<WorkerPc>, a: History, a': History, w: nat)
    requires Agree(c, a, a', w) && |ws| == |ws'| == c.workers
    requires forall u :: 0 <= u < c.workers && u != w ==> ws'[u] == ws[u]
    ensures Total(Standings(c, ws', a')) == Total(Standings(c, ws, a))
            - Standing(c, ws[w], a.stage[w], a.fin[w]) + Standing(c, ws'[w], a'.stage[w], a'.fin[w])
  {
    hide Standing;
    TotalChange(Standings(c, ws, a), Standings(c, ws', a'), w);
  }

  lemma RowChange(c: Config, row: seq<FinishStage>, r: nat, f: FinishStage)
    requires r < |row|
    ensures Total(RowRanks(c, row[r := f])) == Total(RowRanks(c, row)) - FinishRank(row[r]) + FinishRank(f)
  {
    TotalChange(RowRanks(c, row), RowRanks(c, row[r := f]), r);
  }

  /** The request of worker w moves on by one place. */
  lemma StageMoves(c: Config, ws: seq<WorkerPc>, a: History, w: nat, st: Stage)
    requires HistoryShape(c, a) && |ws| == c.workers && w < c.workers && HistoryShape(c, SetStage(a, w, st))
    requires ws[w].Spin? && StageRank(st) >= StageRank(a.stage[w]) + 1
    ensures Total(Standings(c, ws, SetStage(a, w, st))) <= Total(Standings(c, ws, a)) - 10
  {
    StandingsChange(c, ws, ws, a, SetStage(a, w, st), w);
  }

  /** The finish message of worker w for receiver r moves on. */
  lemma FinishMoves(c: Config, ws: seq<WorkerPc>, a: History, w: nat, r: nat, f: FinishStage)
    requires HistoryShape(c, a) && |ws| == c.workers && w < c.workers && r < c.receivers
    requires HistoryShape(c, SetFinish(a, w, r, f))
    ensures Total(Standings(c, ws, SetFinish(a, w, r, f))) ==
            Total(Standings(c, ws, a)) - FinishRank(a.fin[w][r]) + FinishRank(f)
  {
    RowChange(c, a.fin[w], r, f);
    StandingsChange(c, ws, ws, a, SetFinish(a, w, r, f), w);
  }

  lemma ReceiverRankChange(rcs: seq<Receiver>, r: nat, rc: Receiver)
    requires r < |rcs|
    ensures Total(ReceiverRanks(rcs[r := rc])) ==
            Total(ReceiverRanks(rcs)) - ReceiverRank(rcs[r].pc) + ReceiverRank(rc.pc)
  {
    TotalChange(ReceiverRanks(rcs), ReceiverRanks(rcs[r := rc]), r);
  }

  /* ---- each kind of step ---- */

  /** A worker's step brings the worker itself closer to its end, unless it finds no mail. */
  lemma WorkStanding(c: Config, s: State, a: History, w: nat)
    requires WellFormed(c) && Shape(c, s) && HistoryShape(c, a) && WorkersOk(c, s, a)
    requires Enabled(c, s, WorkerStep(w)) && HistoryShape(c, AfterWork(c, s, a, w))
    ensures var pc', a' := Work(c, s, w).workers[w], AfterWork(c, s, a, w);
            var before, after := Standing(c, s.workers[w], a.stage[w], a.fin[w]), Standing(c, pc', a'.stage[w], a'.fin[w]);
            if Idle(c, s, WorkerStep(w)) then after == before else after < before
  {
    hide WorkersOk, Total, RowRanks, Request, ReceiverShape, DispatcherShape, FinishPacket;
    FlagsOf(c, s, a, w);
    if s.workers[w].Finalize? && s.workers[w].k < c.receivers {
      RowChange(c, a.fin[w], s.workers[w].k, FWire);
    }
  }

  lemma WorkMeasure(c: Config, s: State, a: History, w: nat)
    requires WellFormed(c) && Shape(c, s) && HistoryShape(c, a) && WorkersOk(c, s, a)
    requires Enabled(c, s, WorkerStep(w)) && HistoryShape(c, AfterWork(c, s, a, w))
    requires Shape(c, Work(c, s, w))
    ensures var m := Measure(c, Work(c, s, w), AfterWork(c, s, a, w));
            if Idle(c, s, WorkerStep(w)) then m == Measure(c, s, a) else m < Measure(c, s, a)
  {
    hide WorkersOk, Total, Standing, Standings, ReceiverRanks, DispatcherRank, Idle, ReceiverShape, DispatcherShape,
         Request, FinishPacket;
    WorkStanding(c, s, a, w);
    StandingsChange(c, s.workers, Work(c, s, w).workers, a, AfterWork(c, s, a, w), w);
  }

  /** Does this step of the dispatcher move a request on? */
  ghost predicate Moves(c: Config, s: State, stop: bool)
    requires WellFormed(c) && Shape(c, s)
  {
    match s.dpc
    case Scan(_) => !IdleDispatch(c, s)
    case PollFlag(_) => !IdleDispatch(c, s)
    case PollQueue(batch) => s.dCq != [] && |batch| < BATCH && (batch == [] || !stop)
    case Handle(batch, j) => j < |batch|
    case Forward(_) => true
    case EmptySlot(_, _, _) => true
    case FlipMailbox(_, _, _) => true
    case _ => false
  }

  /** A step that moves a request moves it by one place. */
  lemma DispatchMoves(c: Config, s: State, a: History, stop: bool) returns (w: nat, st: Stage)
    requires WellFormed(c) && Inv(c, s, a) && Moves(c, s, stop)
    ensures w < c.workers && s.workers[w].Spin? && StageRank(st) == StageRank(a.stage[w]) + 1
    ensures AfterDispatch(c, s, a, stop) == SetStage(a, w, st)
    ensures s.dpc.FlipMailbox? ==> s.mailboxes[s.dpc.w] == 0
    ensures s.dpc.Handle? ==> Looked(s) < c.workers && OwnerOf(c, s.respSlots[Looked(s)], Looked(s)) == w && s.transfered[w]
  {
    hide WorkersOk, ReceiverAll, RequestWireOk, ResponseWireOk, DispatcherCounts, PhaseOk, DispatcherOk,
         AfterDispatch, SetStage, OwnerOf, StageRank, Shape, HistoryShape, WellFormed;
    if s.dpc.PollFlag? || s.dpc.PollQueue? || s.dpc.Handle? {
      w, st := ResponseMoves(c, s, a, stop);
    } else {
      w, st := SlotMoves(c, s, a, stop);
    }
  }

  lemma SlotMoves(c: Config, s: State, a: History, stop: bool) returns (w: nat, st: Stage)
    requires WellFormed(c) && Shape(c, s) && HistoryShape(c, a) && WorkersOk(c, s, a) && Moves(c, s, stop)
    requires s.dpc.Scan? || s.dpc.Forward? || s.dpc.EmptySlot? || s.dpc.FlipMailbox?
    ensures w < c.workers && s.workers[w].Spin? && StageRank(st) == StageRank(a.stage[w]) + 1
    ensures AfterDispatch(c, s, a, stop) == SetStage(a, w, st)
    ensures s.dpc.FlipMailbox? ==> s.mailboxes[s.dpc.w] == 0
  {
    hide Request;
    if s.dpc.Scan? || s.dpc.Forward? {
      w, st := s.dpc.k, if s.dpc.Scan? then Picked else ReqWire;
    } else {
      w, st := s.dpc.w, if s.dpc.EmptySlot? then Mailing else Mail;
    }
    assert WorkerFlags(c, w, s.workers[w], a.done[w], a.stage[w], s.reqSlots[w], s.transfered[w], s.mailboxes[w], s.dpc);
  }

  /** The response slot a polling or handling dispatcher looks at. */
  function Looked(s: State): nat
    requires s.dpc.PollFlag? || (s.dpc.PollQueue? && s.dCq != []) || (s.dpc.Handle? && s.dpc.j < |s.dpc.batch|)
  {
    if s.dpc.PollFlag? then s.dpc.k else if s.dpc.PollQueue? then s.dCq[0] else s.dpc.batch[s.dpc.j]
  }

  lemma ResponseMoves(c: Config, s: State, a: History, stop: bool) returns (w: nat, st: Stage)
    requires WellFormed(c) && Shape(c, s) && HistoryShape(c, a) && WorkersOk(c, s, a) && Moves(c, s, stop)
    requires DispatcherOk(c, a, s.dpc, s.dPosted, s.dCq, s.respSlots)
    requires s.dpc.PollFlag? || s.dpc.PollQueue? || s.dpc.Handle?
    ensures w < c.workers && s.workers[w].Spin? && StageRank(st) == StageRank(a.stage[w]) + 1
    ensures AfterDispatch(c, s, a, stop) == SetStage(a, w, st)
    ensures s.dpc.Handle? ==> Looked(s) < c.workers && OwnerOf(c, s.respSlots[Looked(s)], Looked(s)) == w && s.transfered[w]
  {
    hide DispatcherOk, WorkersOk, OwnerOf, SetStage, ReceiverShape;
    LookedOk(c, s, a);
    var k := Looked(s);
    w := OwnerOf(c, s.respSlots[k], k);
    st := if s.dpc.Handle? then Clearing else Taken(k);
    RemoteFlags(c, s, a, w);
  }

  lemma RemoteFlags(c: Config, s: State, a: History, w: nat)
    requires WellFormed(c) && Shape(c, s) && HistoryShape(c, a) && WorkersOk(c, s, a) && w < c.workers && Remote(a.stage[w])
    ensures s.workers[w].Spin? && s.transfered[w]
  {
    assert WorkerFlags(c, w, s.workers[w], a.done[w], a.stage[w], s.reqSlots[w], s.transfered[w], s.mailboxes[w], s.dpc);
  }

  lemma LookedOk(c: Config, s: State, a: History)
    requires WellFormed(c) && Shape(c, s) && HistoryShape(c, a)
    requires DispatcherOk(c, a, s.dpc, s.dPosted, s.dCq, s.respSlots)
    requires (s.dpc.PollFlag? && s.dpc.k < c.workers && s.respSlots[s.dpc.k].transferFlag == 1)
             || (s.dpc.PollQueue? && s.dCq != []) || (s.dpc.Handle? && s.dpc.j < |s.dpc.batch|)
    ensures Looked(s) < c.workers && var k := Looked(s); var w := OwnerOf(c, s.respSlots[k], k);
            0 <= w < c.workers && (s.dpc.PollFlag? ==> w == k)
            && a.stage[w] == if s.dpc.Handle? then Taken(k) else Landed(k)
  {
    hide Distinct;
    var k := Looked(s);
    assert s.dpc.Handle? ==> k == s.dpc.batch[s.dpc.j..][0] && k in Pending(s.dpc) && k in s.dpc.batch;
    assert s.dpc.PollQueue? ==> k in s.dCq;
    assert SlotOk(c, a, s.dpc, s.dCq, s.respSlots[k], k);
  }

  /** The response the dispatcher is about to handle has an owner whose request is marked as forwarded. */
  ghost predicate OwnerKnown(c: Config, s: State)
    requires WellFormed(c) && Shape(c, s)
  {
    s.dpc.Handle? && s.dpc.j < |s.dpc.batch| ==>
      && Looked(s) < c.workers
      && 0 <= OwnerOf(c, s.respSlots[Looked(s)], Looked(s)) < c.workers
      && s.transfered[OwnerOf(c, s.respSlots[Looked(s)], Looked(s))]
  }

  /** The rank of the dispatcher rises by less than 10 when it takes a response and falls otherwise. */
  lemma DispatchRank(c: Config, s: State, stop: bool)
    requires WellFormed(c) && Shape(c, s) && Enabled(c, s, DispatcherStep(stop)) && OwnerKnown(c, s)
    requires s.dpc.FlipMailbox? ==> s.mailboxes[s.dpc.w] == 0
    ensures var s' := Dispatch(c, s, stop);
            if IdleDispatch(c, s) then DispatcherRank(s'.dpc) == DispatcherRank(s.dpc)
            else if Moves(c, s, stop) then DispatcherRank(s'.dpc) < DispatcherRank(s.dpc) + 10
            else DispatcherRank(s'.dpc) < DispatcherRank(s.dpc)
  {
    hide OwnerOf, ReceiverShape, BufferLength, Dispatch, DispatcherRank, Moves, IdleDispatch;
    if s.dpc.Handle? && s.dpc.j < |s.dpc.batch| {
      HandleRank(c, s, stop);
    } else {
      PlainRank(c, s, stop);
    }
  }

  lemma HandleRank(c: Config, s: State, stop: bool)
    requires WellFormed(c) && Shape(c, s) && OwnerKnown(c, s) && s.dpc.Handle? && s.dpc.j < |s.dpc.batch|
    ensures DispatcherRank(Dispatch(c, s, stop).dpc) < DispatcherRank(s.dpc)
    ensures !IdleDispatch(c, s) && Moves(c, s, stop)
  {
    hide OwnerOf, ReceiverShape, BufferLength;
    assert s.dpc.batch[s.dpc.j] in s.dpc.batch;
  }

  lemma PlainRank(c: Config, s: State, stop: bool)
    requires WellFormed(c) && Shape(c, s) && !s.dpc.Halted?
    requires !(s.dpc.Handle? && s.dpc.j < |s.dpc.batch|)
    requires s.dpc.FlipMailbox? ==> s.mailboxes[s.dpc.w] == 0
    ensures var s' := Dispatch(c, s, stop);
            if IdleDispatch(c, s) then DispatcherRank(s'.dpc) == DispatcherRank(s.dpc)
            else if Moves(c, s, stop) then DispatcherRank(s'.dpc) < DispatcherRank(s.dpc) + 10
            else DispatcherRank(s'.dpc) < DispatcherRank(s.dpc)
  {
    hide OwnerOf, ReceiverShape, BufferLength;
  }

  lemma DispatchLocal(c: Config, s: State, stop: bool)
    requires WellFormed(c) && Shape(c, s)
    ensures var s' := Dispatch(c, s, stop);
            s'.workers == s.workers && s'.receivers == s.receivers && s'.running == s.running
  {
    hide OwnerOf, ReceiverShape, BufferLength;
  }

  lemma DispatchMeasure(c: Config, s: State, a: History, stop: bool)
    requires WellFormed(c) && Shape(c, s) && HistoryShape(c, a) && Inv(c, s, a) && Enabled(c, s, DispatcherStep(stop))
    requires Shape(c, Dispatch(c, s, stop)) && HistoryShape(c, AfterDispatch(c, s, a, stop))
    ensures var m := Measure(c, Dispatch(c, s, stop), AfterDispatch(c, s, a, stop));
            if IdleDispatch(c, s) then m == Measure(c, s, a) else m < Measure(c, s, a)
  {
    hide Total, Standings, ReceiverRanks, Inv, StageRank, ReceiverShape, OwnerOf, Dispatch, AfterDispatch, Moves,
         DispatcherRank, SetStage, DispatcherShape;
    if IdleDispatch(c, s) {
      IdleUnmoved(c, s, stop);
    }
    if Moves(c, s, stop) {
      var w, st := DispatchMoves(c, s, a, stop);
      StageMoves(c, s.workers, a, w, st);
    } else {
      Unmoved(c, s, a, stop);
    }
    DispatchRank(c, s, stop);
    DispatchLocal(c, s, stop);
  }

  lemma IdleUnmoved(c: Config, s: State, stop: bool)
    requires WellFormed(c) && Shape(c, s) && IdleDispatch(c, s)
    ensures !Moves(c, s, stop)
  {
  }

  lemma Unmoved(c: Config, s: State, a: History, stop: bool)
    requires WellFormed(c) && Shape(c, s) && !Moves(c, s, stop)
    ensures AfterDispatch(c, s, a, stop) == a && !s.dpc.FlipMailbox? && (s.dpc.Handle? ==> s.dpc.j >= |s.dpc.batch|)
  {
    hide SetStage, OwnerOf, ReceiverShape;
  }

  lemma ReceiveMeasure(c: Config, s: State, a: History, r: nat)
    requires WellFormed(c) && Shape(c, s) && Inv(c, s, a) && Enabled(c, s, ReceiverStep(r))
    requires ReceiverShape(c, s.receivers[r]) && HistoryShape(c, AfterReceive(c, a, r, s.receivers[r]))
    requires Shape(c, Apply(c, s, ReceiverStep(r)))
    ensures var m := Measure(c, Apply(c, s, ReceiverStep(r)), AfterReceive(c, a, r, s.receivers[r]));
            if Idle(c, s, ReceiverStep(r)) then m == Measure(c, s, a) else m < Measure(c, s, a)
  {
    hide Total, Standings, ReceiverRanks, Inv, AfterReceive, ReceiverShape, DispatcherShape, Posts, DispatcherRank;
    var rc := s.receivers[r];
    ReceiverRankChange(s.receivers, r, Receive(c, rc));
    ReceiveMoves(c, s, a, r);
  }

  /** A step of receiver r that moves a message on moves it by one place. */
  lemma ReceiveMoves(c: Config, s: State, a: History, r: nat)
    requires WellFormed(c) && Inv(c, s, a) && Enabled(c, s, ReceiverStep(r))
    requires ReceiverShape(c, s.receivers[r]) && HistoryShape(c, AfterReceive(c, a, r, s.receivers[r]))
    ensures var rc := s.receivers[r];
            var left, left' := Total(Standings(c, s.workers, a)), Total(Standings(c, s.workers, AfterReceive(c, a, r, rc)));
            if (rc.pc.Poll? && Receive(c, rc).pc.Test?) || rc.pc.Transfer? then left' <= left - 10 else left' <= left
    ensures Idle(c, s, ReceiverStep(r)) ==> AfterReceive(c, a, r, s.receivers[r]) == a
  {
    hide Total, Standings, RequestWireOk, ResponseWireOk, DispatcherCounts, DispatcherOk, WorkersOk, PhaseOk, ReceiverAll;
    var rc := s.receivers[r];
    if rc.pc.Poll? && Receive(c, rc).pc.Test? {
      var b := Receive(c, rc).pc.b;
      assert c.receiverSrq ==> b in rc.cq;
      UnreadMessage(c, a, r, rc, b);
      MessageMoves(c, s, a, r, rc.mem[b], if rc.mem[b].kind == ExpMsg then Busy(r, b) else Home, FBusy(b));
    } else if rc.pc.Test? || rc.pc.Transfer? {
      HeldMessage(c, a, r, rc);
      if rc.pc.Transfer? || rc.mem[rc.pc.b].kind != ExpMsg {
        MessageMoves(c, s, a, r, rc.mem[rc.pc.b], if rc.pc.Transfer? then RespWire(r) else Home, FCounted);
      }
    }
  }

  /** The request (st not Home) or finish message m names is moved on. */
  lemma MessageMoves(c: Config, s: State, a: History, r: nat, m: Message, st: Stage, f: FinishStage)
    requires WellFormed(c) && Inv(c, s, a) && r < c.receivers && m.origin < c.workers
    requires st.Home? ==> FinishRank(f) + 10 <= FinishRank(a.fin[m.origin][r]) && HistoryShape(c, SetFinish(a, m.origin, r, f))
    requires !st.Home? ==> StageRank(st) == StageRank(a.stage[m.origin]) + 1 && Remote(a.stage[m.origin])
                           && HistoryShape(c, SetStage(a, m.origin, st))
    ensures !st.Home? ==> Total(Standings(c, s.workers, SetStage(a, m.origin, st))) <= Total(Standings(c, s.workers, a)) - 10
    ensures st.Home? ==> Total(Standings(c, s.workers, SetFinish(a, m.origin, r, f))) <= Total(Standings(c, s.workers, a)) - 10
  {
    hide Total, Standings, RequestWireOk, ResponseWireOk, DispatcherCounts, DispatcherOk, WorkersOk, PhaseOk, ReceiverAll,
         SetStage, SetFinish;
    if st.Home? {
      FinishMoves(c, s.workers, a, m.origin, r, f);
    } else {
      RemoteFlags(c, s, a, m.origin);
      StageMoves(c, s.workers, a, m.origin, st);
    }
  }

  lemma HeldMessage(c: Config, a: History, r: nat, rc: Receiver)
    requires WellFormed(c) && HistoryShape(c, a) && r < c.receivers && ReceiverShape(c, rc)
    requires ReceiverAll(c, a, r, rc) && (rc.pc.Test? || rc.pc.Transfer?)
    ensures rc.mem[rc.pc.b].origin < c.workers
    ensures rc.pc.Transfer? ==> a.stage[rc.mem[rc.pc.b].origin] == Busy(r, rc.pc.b)
    ensures rc.pc.Test? ==>
              if rc.mem[rc.pc.b].kind == ExpMsg then a.stage[rc.mem[rc.pc.b].origin] == Busy(r, rc.pc.b)
              else rc.mem[rc.pc.b].kind == FinishedExp && a.fin[rc.mem[rc.pc.b].origin][r] == FBusy(rc.pc.b)
  {
    hide ReceiverPlaces, ReceiverCounts, ReceiverQueuesOk, UnreadOk;
  }

  /** Arrivals change no program counter. */
  lemma RequestArrival(c: Config, s: State, p: RequestPacket, s': State)
    requires WellFormed(c) && Shape(c, s) && p in s.reqWire && s' == Apply(c, s, DeliverRequest(p))
    ensures s'.workers == s.workers && s'.dpc == s.dpc && s'.running == s.running
    ensures ReceiverRanks(s'.receivers) == ReceiverRanks(s.receivers)
  {
    hide ReceiverShape, DispatcherShape, SlotIndex, BufferLength;
  }

  lemma ResponseArrival(c: Config, s: State, p: ResponsePacket, s': State)
    requires WellFormed(c) && Shape(c, s) && p in s.respWire && s' == Apply(c, s, DeliverResponse(p))
    ensures s'.workers == s.workers && s'.dpc == s.dpc && s'.running == s.running && s'.receivers == s.receivers
  {
    hide ReceiverShape, DispatcherShape, SlotIndex, BufferLength, Fetched;
  }

  lemma RequestMeasure(c: Config, s: State, a: History, p: RequestPacket, s': State)
    requires WellFormed(c) && Shape(c, s) && Shape(c, s') && HistoryShape(c, a) && HistoryShape(c, AfterRequest(c, s, a, p))
    requires s'.workers == s.workers && s'.dpc == s.dpc && s'.running == s.running
    requires ReceiverRanks(s'.receivers) == ReceiverRanks(s.receivers)
    requires p in s.reqWire && Inv(c, s, a)
    ensures Measure(c, s', AfterRequest(c, s, a, p)) < Measure(c, s, a)
  {
    hide Total, Standings, ReceiverAll, ResponseWireOk, DispatcherCounts, DispatcherOk, WorkersOk, PhaseOk, Apply,
         ReceiverRanks, DispatcherRank, BufferFor, ReceiverShape, DispatcherShape, Enabled;
    assert RequestPacketOk(c, a, p);
    hide RequestWireOk;
    var b := BufferFor(c, s.receivers[p.to], p.body.origin);
    MessageMoves(c, s, a, p.to, p.body, if p.body.kind == ExpMsg then InBuf(p.to, b) else Home, FBuf(b));
  }

  lemma ResponseMeasure(c: Config, s: State, a: History, p: ResponsePacket, s': State)
    requires WellFormed(c) && Shape(c, s) && Shape(c, s') && HistoryShape(c, a)
    requires s'.workers == s.workers && s'.dpc == s.dpc && s'.running == s.running && s'.receivers == s.receivers
    requires p in s.respWire && Inv(c, s, a)
    requires HistoryShape(c, SetStage(a, p.origin, Landed(SlotFor(c, s, p.origin))))
    ensures Measure(c, s', SetStage(a, p.origin, Landed(SlotFor(c, s, p.origin)))) < Measure(c, s, a)
  {
    hide Total, Standings, ReceiverAll, RequestWireOk, DispatcherCounts, DispatcherOk, WorkersOk, PhaseOk, ReceiverRanks,
         Apply, DispatcherRank, SlotFor, ReceiverShape, DispatcherShape, Enabled;
    assert ResponsePacketOk(c, a, p);
    hide ResponseWireOk;
    MessageMoves(c, s, a, 0, EMPTY_MESSAGE.(origin := p.origin), Landed(SlotFor(c, s, p.origin)), FNone);
  }

  /** Every step but an empty poll makes the measure smaller; an empty poll leaves it alone. */
  lemma StepMeasure(c: Config, s: State, a: History, step: Step, s': State, a': History)
    requires WellFormed(c) && Next(c, s, step, s') && Inv(c, s, a)
    requires Inv(c, s', a') && a' == HistoryAfter(c, s, a, step)
    ensures if Idle(c, s, step) then Measure(c, s', a') == Measure(c, s, a) else Measure(c, s', a') < Measure(c, s, a)
  {
    hide ReceiverAll, RequestWireOk, ResponseWireOk, DispatcherOk, DispatcherCounts, WorkersOk, PhaseOk,
         Work, Dispatch, Receive, Total, Standings, ReceiverRanks, DispatcherRank, ReceiverShape, DispatcherShape,
         IdleDispatch, AfterWork, AfterDispatch, AfterReceive, AfterRequest, ArriveRequest, ArriveResponse, SetStage;
    match step
    case WorkerStep(w) => WorkMeasure(c, s, a, w);
    case DispatcherStep(stop) => DispatchMeasure(c, s, a, stop);
    case ReceiverStep(r) => ReceiveMeasure(c, s, a, r);
    case MainStep =>
    case DeliverRequest(p) => RequestArrival(c, s, p, s'); RequestMeasure(c, s, a, p, s');
    case DeliverResponse(p) => ResponseArrival(c, s, p, s'); ResponseMeasure(c, s, a, p, s');
  }
}
