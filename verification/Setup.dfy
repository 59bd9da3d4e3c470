/**
 How the receivers and the senders set up a run. A sender goes through the receivers in turn: it sends an InitExp
 message and waits for the answer. A receiver collects the messages of all senders, prepares its request buffers and
 answers each sender with its slice of the responses and the address of its request slot. The start state of the
 protocol is where this leads, whatever the interleaving, and it always gets there.
 */
module Setup {
  import opened Arithmetic
  import opened Sums
  import opened Partition
  import Protocol
  import ProtocolFrames

  /** Fixed for one receiver: the senders' IDs, its prepared responses, the address of its request buffers and whether
      it receives through a shared receive queue. */
  datatype Plan = Plan(nodeIds: seq<nat>, prepared: nat, base: nat, srq: bool)

  datatype Answer = Answer(from: int, to: int, msgOffset: nat)

  /** Where a sender's part of the exchange with one receiver is. */
  datatype SenderPc = Start | OnWire | Queued | Known | Answered(answer: Answer) | Ready(answer: Answer)

  datatype Buffer = InitBuffer(k: nat) | RequestBuffer(b: nat)

  datatype ReceiverPc = Collecting | Preparing(i: nat) | Replying(i: nat) | Running

  /** `known` is connectedSenderIds_, by sender; the first `cleared` request buffers have been set to EMPTY; `short`
      records a message that found no buffer. */
  datatype State = State(
    senders: seq<SenderPc>, queue: seq<Buffer>, cleared: nat, known: seq<nat>, pc: ReceiverPc, short: bool)

  datatype Step = Send(w: nat) | Arrive(w: nat) | Collect(w: nat) | Receiver | Deliver(w: nat)

  function InitBuffers(from: nat, n: nat): seq<Buffer>
    requires from <= n
  {
    seq(n - from, k requires 0 <= k < n - from => InitBuffer(from + k))
  }

  function RequestBuffers(n: nat): seq<Buffer> { seq(n, k requires 0 <= k < n => RequestBuffer(k)) }

  function Init(n: nat): State {
    State(seq(n, _ => Start), InitBuffers(0, n), 0, [], Collecting, false)
  }

  function Ids(nodeIds: seq<nat>, known: seq<nat>): seq<nat>
    requires forall i :: 0 <= i < |known| ==> known[i] < |nodeIds|
  {
    seq(|known|, i requires 0 <= i < |known| => nodeIds[known[i]])
  }

  ghost predicate Shape(p: Plan, s: State) {
    && |s.senders| == |p.nodeIds| > 0
    && forall i :: 0 <= i < |s.known| ==> s.known[i] < |p.nodeIds|
  }

  /** reqBufferLength_ once the largest ID among the known senders has been found. */
  function RequestLength(p: Plan, known: seq<nat>): nat
    requires forall i :: 0 <= i < |known| ==> known[i] < |p.nodeIds|
  {
    if known == [] then 0 else Protocol.MaxOf(Ids(p.nodeIds, known)) + 1
  }

  function AnswerFor(p: Plan, length: nat, w: nat): Answer
    requires w < |p.nodeIds| && length > 0
  {
    var id := p.nodeIds[w];
    Answer(SliceFrom(p.prepared, length, id), SliceTo(p.prepared, length, id),
           Protocol.SlotAddress(p.base, Protocol.MESSAGE_SIZE, id))
  }

  ghost predicate Enabled(p: Plan, s: State, step: Step)
    requires Shape(p, s)
  {
    match step
    case Send(w) => w < |p.nodeIds| && s.senders[w].Start?
    case Arrive(w) => w < |p.nodeIds| && s.senders[w].OnWire?
    case Collect(w) => w < |p.nodeIds| && s.senders[w].Queued? && s.pc.Collecting?
    case Receiver => s.pc.Preparing? || s.pc.Replying?
    case Deliver(w) => w < |p.nodeIds| && s.senders[w].Answered?
  }

  function Apply(p: Plan, s: State, step: Step): State
    requires Shape(p, s) && Enabled(p, s, step)
  {
    match step
    case Send(w) => s.(senders := s.senders[w := OnWire])
    case Arrive(w) =>
      if s.queue == [] then s.(short := true)
      else s.(queue := s.queue[1..], senders := s.senders[w := Queued])
    case Collect(w) =>
      var known := s.known + [w];
      s.(known := known, senders := s.senders[w := Known],
         pc := if |known| == |p.nodeIds| then Preparing(0) else Collecting)
    case Receiver => Receive(p, s)
    case Deliver(w) => s.(senders := s.senders[w := Ready(s.senders[w].answer)])
  }

  /** Post or clear the next request buffer, or send the next answer. */
  function Receive(p: Plan, s: State): State
    requires Shape(p, s) && (s.pc.Preparing? || s.pc.Replying?)
  {
    var length := RequestLength(p, s.known);
    var i := s.pc.i;
    if s.pc.Preparing? then
      if i >= length then s.(pc := Replying(0))
      else if p.srq then s.(queue := s.queue + [RequestBuffer(i)], pc := Preparing(i + 1))
      else s.(cleared := i + 1, pc := Preparing(i + 1))
    else if i < |s.known| then
      s.(senders := s.senders[s.known[i] := Answered(AnswerFor(p, length, s.known[i]))], pc := Replying(i + 1))
    else
      s.(pc := Running)
  }

  /* ---- all receivers ---- */

  datatype Move = Move(r: nat, step: Step)

  function PlanOf(c: Protocol.Config, r: nat): Plan
    requires Protocol.WellFormed(c) && r < c.receivers
  {
    Plan(c.nodeIds, c.prepared, c.reqBases[r], c.receiverSrq)
  }

  function InitAll(c: Protocol.Config): seq<State> { seq(c.receivers, _ => Init(|c.nodeIds|)) }

  ghost predicate ShapeAll(c: Protocol.Config, ss: seq<State>)
    requires Protocol.WellFormed(c)
  {
    |ss| == c.receivers && forall r :: 0 <= r < c.receivers ==> Shape(PlanOf(c, r), ss[r])
  }

  /** A sender turns to a receiver when all receivers before it have answered. */
  ghost predicate CanMove(c: Protocol.Config, ss: seq<State>, m: Move)
    requires Protocol.WellFormed(c) && ShapeAll(c, ss)
  {
    && m.r < c.receivers && Enabled(PlanOf(c, m.r), ss[m.r], m.step)
    && (m.step.Send? ==> forall q :: 0 <= q < m.r ==> ss[q].senders[m.step.w].Ready?)
  }

  ghost predicate IsRun(c: Protocol.Config, tr: seq<seq<State>>, moves: seq<Move>)
    requires Protocol.WellFormed(c)
  {
    && |tr| == |moves| + 1 && tr[0] == InitAll(c)
    && forall n :: 0 <= n < |moves| ==> Next(c, tr[n], moves[n], tr[n + 1])
  }

  ghost predicate Next(c: Protocol.Config, ss: seq<State>, m: Move, ss': seq<State>)
    requires Protocol.WellFormed(c)
  {
    && ShapeAll(c, ss) && CanMove(c, ss, m)
    && ss' == ss[m.r := Apply(PlanOf(c, m.r), ss[m.r], m.step)]
  }

  /* ---- the invariant ---- */

  predicate Arrived(pc: SenderPc) { !pc.Start? && !pc.OnWire? }

  predicate HasAnswer(pc: SenderPc) { pc.Answered? || pc.Ready? }

  predicate Counted(pc: SenderPc) { pc.Known? || HasAnswer(pc) }

  ghost function ArrivedSeq(s: State): seq<int> {
    seq(|s.senders|, w requires 0 <= w < |s.senders| => if Arrived(s.senders[w]) then 1 else 0)
  }

  ghost function CountedSeq(s: State): seq<int> {
    seq(|s.senders|, w requires 0 <= w < |s.senders| => if Counted(s.senders[w]) then 1 else 0)
  }

  /** What the largest ID of all senders makes of reqBufferLength_. */
  function Length(p: Plan): nat
    requires p.nodeIds != []
  {
    Protocol.MaxOf(p.nodeIds) + 1
  }

  /** The list of known senders, each once, and how far the answers have got. */
  ghost predicate ListOk(p: Plan, s: State)
    requires Shape(p, s)
  {
    && |s.known| == Total(CountedSeq(s)) <= |p.nodeIds|
    && (forall i, j :: 0 <= i < j < |s.known| ==> s.known[i] != s.known[j])
    && (forall w :: 0 <= w < |p.nodeIds| ==> (w in s.known <==> Counted(s.senders[w])))
    && (forall w :: 0 <= w < |p.nodeIds| && HasAnswer(s.senders[w]) ==>
          s.senders[w].answer == AnswerFor(p, Length(p), w))
    && (s.pc.Collecting? <==> |s.known| < |p.nodeIds|)
    && match s.pc
       case Collecting => forall w :: 0 <= w < |p.nodeIds| ==> !HasAnswer(s.senders[w])
       case Preparing(_) => forall w :: 0 <= w < |p.nodeIds| ==> !HasAnswer(s.senders[w])
       case Replying(i) =>
         i <= |s.known| && forall j :: 0 <= j < |s.known| ==> (HasAnswer(s.senders[s.known[j]]) <==> j < i)
       case Running => forall w :: 0 <= w < |p.nodeIds| ==> HasAnswer(s.senders[w])
  }

  /** The buffers posted and the request slots cleared. */
  ghost predicate BuffersOk(p: Plan, s: State)
    requires Shape(p, s)
  {
    && !s.short
    && (s.pc.Collecting? ==>
          && 0 <= Total(ArrivedSeq(s)) <= |p.nodeIds| && s.queue == InitBuffers(Total(ArrivedSeq(s)), |p.nodeIds|)
          && s.cleared == 0)
    && (!s.pc.Collecting? ==>
          && RequestLength(p, s.known) == Length(p)
          && (s.pc.Preparing? ==> s.pc.i <= Length(p))
          && var ready := if s.pc.Preparing? then s.pc.i else Length(p);
          && s.queue == RequestBuffers(if p.srq then ready else 0)
          && s.cleared == if p.srq then 0 else ready)
  }

  ghost predicate Inv(p: Plan, s: State) {
    Shape(p, s) && ListOk(p, s) && BuffersOk(p, s)
  }

  lemma InitOk(p: Plan)
    requires p.nodeIds != []
    ensures Inv(p, Init(|p.nodeIds|))
  {
    TotalZero(ArrivedSeq(Init(|p.nodeIds|)));
    TotalZero(CountedSeq(Init(|p.nodeIds|)));
  }

  /** An InitExp message always finds one of the buffers posted for them. */
  lemma ArriveKeeps(p: Plan, s: State, w: nat)
    requires Inv(p, s) && Enabled(p, s, Arrive(w))
    ensures s.queue != [] && s.queue[0].InitBuffer? && Inv(p, Apply(p, s, Arrive(w)))
  {
    hide ListOk, AnswerFor, RequestLength, RequestBuffers, Length, Total;
    NotYetIn(p, s, w);
    assert ArrivedSeq(s)[w] == 0;
    TotalHole(ArrivedSeq(s), w);
    var s' := Apply(p, s, Arrive(w));
    TotalChange(ArrivedSeq(s), ArrivedSeq(s'), w);
    ArriveLists(p, s, w);
  }

  /** An arrival does not touch what the receiver has collected. */
  lemma ArriveLists(p: Plan, s: State, w: nat)
    requires Shape(p, s) && ListOk(p, s) && Enabled(p, s, Arrive(w)) && s.queue != []
    ensures ListOk(p, Apply(p, s, Arrive(w)))
  {
    hide AnswerFor, InitBuffers, Length, Total;
    assert CountedSeq(Apply(p, s, Arrive(w))) == CountedSeq(s);
  }

  /** While a sender is missing the receiver goes on collecting. */
  lemma NotYetIn(p: Plan, s: State, w: nat)
    requires Shape(p, s) && ListOk(p, s) && w < |p.nodeIds| && !Counted(s.senders[w])
    ensures s.pc.Collecting?
  {
    assert CountedSeq(s)[w] == 0;
    TotalHole(CountedSeq(s), w);
  }

  lemma CollectKeeps(p: Plan, s: State, w: nat)
    requires Inv(p, s) && Enabled(p, s, Collect(w))
    ensures Inv(p, Apply(p, s, Collect(w)))
  {
    hide RequestLength, Length, InitBuffers;
    var s' := Apply(p, s, Collect(w));
    assert Shape(p, s');
    TotalChange(CountedSeq(s), CountedSeq(s'), w);
    TotalBounds(CountedSeq(s'), 0, 1);
    assert ArrivedSeq(s') == ArrivedSeq(s);
    assert ListOk(p, s');
    if |s'.known| == |p.nodeIds| {
      AllArrived(p, s');
    }
  }

  lemma AllArrived(p: Plan, s: State)
    requires Shape(p, s) && ListOk(p, s) && |s.known| == |p.nodeIds|
    ensures Total(ArrivedSeq(s)) == |p.nodeIds| && RequestLength(p, s.known) == Length(p)
    ensures InitBuffers(|p.nodeIds|, |p.nodeIds|) == RequestBuffers(0)
    ensures forall w :: 0 <= w < |p.nodeIds| ==> Counted(s.senders[w]) && w in s.known
  {
    hide Total, AnswerFor, Protocol.MaxOf;
    TotalFull(CountedSeq(s));
    forall w | 0 <= w < |p.nodeIds| ensures Counted(s.senders[w]) && w in s.known {
      assert CountedSeq(s)[w] == 1;
    }
    TotalFull(ArrivedSeq(s));
    SameIds(p.nodeIds, s.known);
    SameLargest(Ids(p.nodeIds, s.known), p.nodeIds);
  }

  /** The largest ID does not depend on the order in which the senders came. */
  lemma SameLargest(xs: seq<nat>, ys: seq<nat>)
    requires xs != [] && ys != []
    requires forall x :: x in xs <==> x in ys
    ensures Protocol.MaxOf(xs) == Protocol.MaxOf(ys)
  {
    assert Protocol.MaxOf(xs) in ys && Protocol.MaxOf(ys) in xs;
  }

  lemma SameIds(nodeIds: seq<nat>, known: seq<nat>)
    requires forall i :: 0 <= i < |known| ==> known[i] < |nodeIds|
    requires forall w :: 0 <= w < |nodeIds| ==> w in known
    ensures forall id :: id in Ids(nodeIds, known) <==> id in nodeIds
  {
    forall id ensures id in Ids(nodeIds, known) <==> id in nodeIds {
      if i :| 0 <= i < |nodeIds| && nodeIds[i] == id {
        assert i in known;
        var j :| 0 <= j < |known| && known[j] == i;
        assert Ids(nodeIds, known)[j] == id;
      }
    }
  }

  lemma PrepareKeeps(p: Plan, s: State)
    requires Inv(p, s) && s.pc.Preparing?
    ensures Inv(p, Receive(p, s))
  {
    hide AnswerFor, RequestLength, Length;
    assert CountedSeq(Receive(p, s)) == CountedSeq(s);
    assert RequestBuffers(s.pc.i + 1) == RequestBuffers(s.pc.i) + [RequestBuffer(s.pc.i)];
  }

  lemma ReplyKeeps(p: Plan, s: State)
    requires Inv(p, s) && s.pc.Replying?
    ensures Inv(p, Receive(p, s))
  {
    hide AnswerFor, RequestLength, RequestBuffers, Length;
    var s' := Receive(p, s);
    assert CountedSeq(s') == CountedSeq(s);
    if s.pc.i >= |s.known| {
      AllArrived(p, s);
    }
  }

  lemma DeliverKeeps(p: Plan, s: State, w: nat)
    requires Inv(p, s) && Enabled(p, s, Deliver(w))
    ensures Inv(p, Apply(p, s, Deliver(w)))
  {
    hide AnswerFor, RequestLength, RequestBuffers, Length;
    var s' := Apply(p, s, Deliver(w));
    assert CountedSeq(s') == CountedSeq(s) && ArrivedSeq(s') == ArrivedSeq(s);
    assert forall u :: 0 <= u < |p.nodeIds| ==> (HasAnswer(s'.senders[u]) <==> HasAnswer(s.senders[u]));
  }

  lemma SendKeeps(p: Plan, s: State, w: nat)
    requires Inv(p, s) && Enabled(p, s, Send(w))
    ensures Inv(p, Apply(p, s, Send(w)))
  {
    hide AnswerFor, RequestLength, InitBuffers, RequestBuffers, Length, Total;
    var s' := Apply(p, s, Send(w));
    assert CountedSeq(s') == CountedSeq(s) && ArrivedSeq(s') == ArrivedSeq(s);
  }

  lemma StepKeeps(p: Plan, s: State, step: Step)
    requires Shape(p, s) && Enabled(p, s, step) && Inv(p, s)
    ensures Inv(p, Apply(p, s, step))
  {
    hide ListOk, BuffersOk, Receive;
    match step
    case Arrive(w) => ArriveKeeps(p, s, w);
    case Collect(w) => CollectKeeps(p, s, w);
    case Receiver => if s.pc.Preparing? { PrepareKeeps(p, s); } else { ReplyKeeps(p, s); }
    case Deliver(w) => DeliverKeeps(p, s, w);
    case Send(w) => SendKeeps(p, s, w);
  }

  /* ---- the exchange with one receiver gets done ---- */

  function SenderLeft(pc: SenderPc): nat {
    match pc
    case Start => 5
    case OnWire => 4
    case Queued => 3
    case Known => 2
    case Answered(_) => 1
    case Ready(_) => 0
  }

  ghost function SendersLeft(s: State): seq<int> {
    seq(|s.senders|, w requires 0 <= w < |s.senders| => SenderLeft(s.senders[w]))
  }

  function ReceiverLeft(p: Plan, pc: ReceiverPc): int
    requires p.nodeIds != []
  {
    match pc
    case Collecting => Length(p) + |p.nodeIds| + 3
    case Preparing(i) => Length(p) - i + |p.nodeIds| + 2
    case Replying(i) => |p.nodeIds| - i + 1
    case Running => 0
  }

  ghost function Left(p: Plan, s: State): int
    requires p.nodeIds != []
  {
    Total(SendersLeft(s)) + ReceiverLeft(p, s.pc)
  }

  lemma LeftIsNat(p: Plan, s: State)
    requires Inv(p, s)
    ensures Left(p, s) >= 0
  {
    hide Length, RequestLength, AnswerFor;
    TotalNonNegative(SendersLeft(s));
  }

  /** Every step of the exchange leaves less to do. */
  lemma StepLowers(p: Plan, s: State, step: Step)
    requires Inv(p, s) && Enabled(p, s, step)
    ensures Left(p, Apply(p, s, step)) < Left(p, s)
  {
    hide Length, RequestLength, AnswerFor, InitBuffers;
    var s' := Apply(p, s, step);
    match step
    case Send(w) => TotalChange(SendersLeft(s), SendersLeft(s'), w);
    case Collect(w) => TotalChange(SendersLeft(s), SendersLeft(s'), w);
    case Deliver(w) => TotalChange(SendersLeft(s), SendersLeft(s'), w);
    case Arrive(w) =>
      ArriveKeeps(p, s, w);
      TotalChange(SendersLeft(s), SendersLeft(s'), w);
    case Receiver => ReceiveLowers(p, s);
  }

  lemma ReceiveLowers(p: Plan, s: State)
    requires Inv(p, s) && (s.pc.Preparing? || s.pc.Replying?)
    ensures Left(p, Receive(p, s)) < Left(p, s)
  {
    hide AnswerFor, InitBuffers, RequestBuffers, RequestLength;
    var s' := Receive(p, s);
    if s.pc.Preparing? || s.pc.i >= |s.known| {
      assert SendersLeft(s') == SendersLeft(s);
    } else {
      assert s.known[s.pc.i] in s.known;
      TotalChange(SendersLeft(s), SendersLeft(s'), s.known[s.pc.i]);
    }
  }

  /** The receiver runs and every sender has its answer. */
  ghost predicate Done(p: Plan, s: State)
    requires Shape(p, s)
  {
    s.pc.Running? && forall w :: 0 <= w < |p.nodeIds| ==> s.senders[w].Ready?
  }

  /** Unless the exchange is done, one more step is possible, be it only that a sender starts. */
  lemma StepOrDone(p: Plan, s: State) returns (step: Step)
    requires Inv(p, s) && !Done(p, s)
    ensures Enabled(p, s, step)
  {
    hide Length, RequestLength, AnswerFor, InitBuffers, BuffersOk;
    if s.pc.Collecting? {
      var w := Missing(p, s);
      step := match s.senders[w] case Start => Send(w) case OnWire => Arrive(w) case _ => Collect(w);
    } else if s.pc.Running? {
      var w :| 0 <= w < |p.nodeIds| && !s.senders[w].Ready?;
      step := Deliver(w);
    } else {
      step := Receiver;
    }
  }

  lemma Missing(p: Plan, s: State) returns (w: nat)
    requires Shape(p, s) && ListOk(p, s) && s.pc.Collecting?
    ensures w < |p.nodeIds| && !Counted(s.senders[w])
  {
    TotalFull(CountedSeq(s));
    var u :| 0 <= u < |p.nodeIds| && CountedSeq(s)[u] != 1;
    w := u;
  }

  lemma DoneIsFinal(p: Plan, s: State, step: Step)
    requires Inv(p, s) && Done(p, s)
    ensures !Enabled(p, s, step)
  {
  }

  /* ---- all exchanges ---- */

  ghost predicate InvAll(c: Protocol.Config, ss: seq<State>)
    requires Protocol.WellFormed(c)
  {
    |ss| == c.receivers && forall r :: 0 <= r < c.receivers ==> Inv(PlanOf(c, r), ss[r])
  }

  lemma {:induction false} RunKeeps(c: Protocol.Config, tr: seq<seq<State>>, moves: seq<Move>, n: nat)
    requires Protocol.WellFormed(c) && IsRun(c, tr, moves) && n <= |moves|
    ensures |tr| == |moves| + 1 && InvAll(c, tr[n]) && ShapeAll(c, tr[n])
  {
    hide ListOk, BuffersOk, Apply, Enabled;
    if n == 0 {
      forall r | 0 <= r < c.receivers ensures Inv(PlanOf(c, r), tr[0][r]) {
        InitOk(PlanOf(c, r));
      }
    } else {
      RunKeeps(c, tr, moves, n - 1);
      assert Next(c, tr[n - 1], moves[n - 1], tr[n]);
      var r := moves[n - 1].r;
      StepKeeps(PlanOf(c, r), tr[n - 1][r], moves[n - 1].step);
    }
  }

  ghost function LeftSeq(c: Protocol.Config, ss: seq<State>): seq<int>
    requires Protocol.WellFormed(c) && |ss| == c.receivers
  {
    seq(c.receivers, r requires 0 <= r < c.receivers => Left(PlanOf(c, r), ss[r]))
  }

  lemma MoveLowers(c: Protocol.Config, ss: seq<State>, m: Move, ss': seq<State>)
    requires Protocol.WellFormed(c) && InvAll(c, ss) && Next(c, ss, m, ss')
    ensures |ss'| == c.receivers && Total(LeftSeq(c, ss')) < Total(LeftSeq(c, ss))
  {
    hide Left, Inv, Apply, Enabled;
    StepLowers(PlanOf(c, m.r), ss[m.r], m.step);
    TotalChange(LeftSeq(c, ss), LeftSeq(c, ss'), m.r);
  }

  ghost predicate AllDone(c: Protocol.Config, ss: seq<State>)
    requires Protocol.WellFormed(c) && ShapeAll(c, ss)
  {
    forall r :: 0 <= r < c.receivers ==> Done(PlanOf(c, r), ss[r])
  }

  /** Until everything is done some move is possible: at the first receiver that is not done, nobody waits for another. */
  lemma {:induction false} MoveFrom(c: Protocol.Config, ss: seq<State>, r: nat) returns (m: Move)
    requires Protocol.WellFormed(c) && InvAll(c, ss) && ShapeAll(c, ss) && !AllDone(c, ss) && r < c.receivers
    requires forall q :: 0 <= q < r ==> Done(PlanOf(c, q), ss[q])
    ensures CanMove(c, ss, m)
    decreases c.receivers - r
  {
    hide Inv;
    if Done(PlanOf(c, r), ss[r]) {
      m := MoveFrom(c, ss, r + 1);
    } else {
      var step := StepOrDone(PlanOf(c, r), ss[r]);
      m := Move(r, step);
    }
  }

  /** What a run can take at most, in moves. */
  ghost function Longest(c: Protocol.Config): int
    requires Protocol.WellFormed(c)
  {
    c.receivers * (6 * c.workers + Protocol.BufferLength(c) + 3)
  }

  lemma StartLeft(c: Protocol.Config)
    requires Protocol.WellFormed(c)
    ensures Total(LeftSeq(c, InitAll(c))) == Longest(c)
  {
    forall r | 0 <= r < c.receivers
      ensures LeftSeq(c, InitAll(c))[r] == 6 * c.workers + Protocol.BufferLength(c) + 3
    {
      TotalConst(SendersLeft(Init(|c.nodeIds|)), 5);
    }
    TotalConst(LeftSeq(c, InitAll(c)), 6 * c.workers + Protocol.BufferLength(c) + 3);
  }

  lemma {:induction false} MovesLeft(c: Protocol.Config, tr: seq<seq<State>>, moves: seq<Move>, n: nat)
    requires Protocol.WellFormed(c) && IsRun(c, tr, moves) && n <= |moves|
    ensures |tr[n]| == c.receivers && Total(LeftSeq(c, tr[n])) + n <= Longest(c)
  {
    hide LeftSeq, Protocol.WellFormed, Longest, InvAll, ShapeAll, CanMove;
    if n == 0 {
      StartLeft(c);
    } else {
      MovesLeft(c, tr, moves, n - 1);
      RunKeeps(c, tr, moves, n - 1);
      assert Next(c, tr[n - 1], moves[n - 1], tr[n]);
      MoveLowers(c, tr[n - 1], moves[n - 1], tr[n]);
    }
  }

  /**
   However senders, receivers and network are interleaved, the set-up takes a bounded number of moves, and it cannot
   be continued exactly if every receiver runs and every sender has the answers of all receivers.
   */
  lemma SetUpCompletes(c: Protocol.Config, tr: seq<seq<State>>, moves: seq<Move>)
    requires Protocol.WellFormed(c) && IsRun(c, tr, moves)
    ensures ShapeAll(c, tr[|moves|]) && |moves| <= Longest(c)
    ensures (forall m :: !CanMove(c, tr[|moves|], m)) <==> AllDone(c, tr[|moves|])
  {
    hide IsRun, LeftSeq, Inv, Protocol.WellFormed, Done, Enabled, Longest;
    RunKeeps(c, tr, moves, |moves|);
    var ss := tr[|moves|];
    MovesLeft(c, tr, moves, |moves|);
    AllLeftIsNat(c, ss);
    if AllDone(c, ss) {
      forall m ensures !CanMove(c, ss, m) {
        if m.r < c.receivers {
          DoneIsFinal(PlanOf(c, m.r), ss[m.r], m.step);
        }
      }
    } else {
      var m := MoveFrom(c, ss, 0);
    }
  }

  lemma AllLeftIsNat(c: Protocol.Config, ss: seq<State>)
    requires Protocol.WellFormed(c) && InvAll(c, ss)
    ensures Total(LeftSeq(c, ss)) >= 0
  {
    hide Inv, Left;
    forall r | 0 <= r < c.receivers ensures LeftSeq(c, ss)[r] >= 0 {
      LeftIsNat(PlanOf(c, r), ss[r]);
    }
    TotalNonNegative(LeftSeq(c, ss));
  }

  /* ---- what the senders and the receivers then have ---- */

  /**
   A receiver that runs has answered every sender, each once and in the order they came; while it answers, exactly
   those before its index in the list have been answered.
   */
  lemma AnsweredInOrder(c: Protocol.Config, tr: seq<seq<State>>, moves: seq<Move>, n: nat, r: nat, w: nat)
    requires Protocol.WellFormed(c) && IsRun(c, tr, moves) && n <= |moves| && r < c.receivers && w < c.workers
    ensures ShapeAll(c, tr[n])
    ensures tr[n][r].pc.Running? ==> HasAnswer(tr[n][r].senders[w])
    ensures tr[n][r].pc.Replying? ==> exists j :: 0 <= j < |tr[n][r].known| && tr[n][r].known[j] == w
                                        && (HasAnswer(tr[n][r].senders[w]) <==> j < tr[n][r].pc.i)
    ensures HasAnswer(tr[n][r].senders[w]) ==> tr[n][r].pc.Replying? || tr[n][r].pc.Running?
  {
    hide IsRun, RequestLength, Length, AnswerFor, BuffersOk;
    RunKeeps(c, tr, moves, n);
    var s := tr[n][r];
    assert Inv(PlanOf(c, r), s);
    if s.pc.Replying? {
      AllArrived(PlanOf(c, r), s);
      assert w in s.known;
      var j :| 0 <= j < |s.known| && s.known[j] == w;
    }
  }

  /**
   When a sender has its answer, and so before any request can be sent, every InitExp message has come in, their
   buffers are used up, and exactly the request buffers 0 .. maxNodeID are posted, in order, or all set to EMPTY.
   */
  lemma ReadyMeansPosted(c: Protocol.Config, tr: seq<seq<State>>, moves: seq<Move>, n: nat, r: nat, w: nat)
    requires Protocol.WellFormed(c) && IsRun(c, tr, moves) && n <= |moves| && r < c.receivers && w < c.workers
    requires ShapeAll(c, tr[n]) && HasAnswer(tr[n][r].senders[w])
    ensures tr[n][r].queue == RequestBuffers(if c.receiverSrq then Protocol.BufferLength(c) else 0)
    ensures tr[n][r].cleared == if c.receiverSrq then 0 else Protocol.BufferLength(c)
    ensures !tr[n][r].short && forall u :: 0 <= u < c.workers ==> Counted(tr[n][r].senders[u])
  {
    hide IsRun, RequestLength, AnswerFor;
    RunKeeps(c, tr, moves, n);
    assert Inv(PlanOf(c, r), tr[n][r]);
    AllArrived(PlanOf(c, r), tr[n][r]);
  }

  function AsBuffers(posted: seq<nat>): seq<Buffer> {
    seq(|posted|, k requires 0 <= k < |posted| => RequestBuffer(posted[k]))
  }

  /** So the receive queue of every receiver, or the slots it polls, are those its protocol run starts from. */
  lemma ReadyIsProtocolStart(c: Protocol.Config, tr: seq<seq<State>>, moves: seq<Move>, n: nat, r: nat, w: nat)
    requires Protocol.WellFormed(c) && IsRun(c, tr, moves) && n <= |moves| && r < c.receivers && w < c.workers
    requires ShapeAll(c, tr[n]) && HasAnswer(tr[n][r].senders[w])
    ensures tr[n][r].queue == AsBuffers(Protocol.Init(c).receivers[r].posted)
    ensures !c.receiverSrq ==> tr[n][r].cleared == |Protocol.Init(c).receivers[r].mem|
  {
    ReadyMeansPosted(c, tr, moves, n, r, w);
    hide IsRun;
    assert Protocol.Init(c).receivers[r] == Protocol.InitReceiver(c);
    assert RequestBuffers(Protocol.BufferLength(c)) == AsBuffers(Protocol.Iota(Protocol.BufferLength(c)));
  }

  lemma AnswerIs(c: Protocol.Config, tr: seq<seq<State>>, moves: seq<Move>, n: nat, r: nat, w: nat)
    requires Protocol.WellFormed(c) && IsRun(c, tr, moves) && n <= |moves| && r < c.receivers && w < c.workers
    requires ShapeAll(c, tr[n]) && HasAnswer(tr[n][r].senders[w])
    ensures tr[n][r].senders[w].answer == AnswerFor(PlanOf(c, r), Protocol.BufferLength(c), w)
  {
    hide IsRun, RequestLength, BuffersOk, AnswerFor;
    RunKeeps(c, tr, moves, n);
    assert Inv(PlanOf(c, r), tr[n][r]);
  }

  /** And what a sender has been told is what it draws its responses from and where it addresses its requests. */
  lemma ReadyKnowsSlice(c: Protocol.Config, tr: seq<seq<State>>, moves: seq<Move>, n: nat, r: nat, w: nat, i: nat)
    requires Protocol.WellFormed(c) && IsRun(c, tr, moves) && n <= |moves| && r < c.receivers && w < c.workers
    requires ShapeAll(c, tr[n]) && tr[n][r].senders[w].Ready? && i < c.requests
    ensures var a := tr[n][r].senders[w].answer;
            && a.from < a.to && Protocol.ResponseId(c, w, i) == c.rand[w][i] % (a.to - a.from) + a.from
            && (Protocol.Target(c, w, i) == r ==> Protocol.Request(c, w, i).padPtr == a.msgOffset)
  {
    hide IsRun, ShapeAll;
    AnswerIs(c, tr, moves, n, r, w);
    SliceUsable(c.prepared, Protocol.BufferLength(c), c.nodeIds[w]);
  }

  /** Two senders are told slices without a common slot and request slots without a common byte. */
  lemma AnswersApart(c: Protocol.Config, tr: seq<seq<State>>, moves: seq<Move>, n: nat, r: nat, u: nat, w: nat)
    requires Protocol.WellFormed(c) && IsRun(c, tr, moves) && n <= |moves| && r < c.receivers
    requires u < c.workers && w < c.workers && c.nodeIds[u] < c.nodeIds[w]
    requires ShapeAll(c, tr[n]) && HasAnswer(tr[n][r].senders[u]) && HasAnswer(tr[n][r].senders[w])
    ensures var a, b := tr[n][r].senders[u].answer, tr[n][r].senders[w].answer;
            && 0 <= a.from < a.to < b.from < b.to < c.prepared
            && c.reqBases[r] <= a.msgOffset && a.msgOffset + Protocol.MESSAGE_SIZE <= b.msgOffset
            && b.msgOffset + Protocol.MESSAGE_SIZE <= c.reqBases[r] + Protocol.BufferLength(c) * Protocol.MESSAGE_SIZE
  {
    hide IsRun, ShapeAll;
    var length := Protocol.BufferLength(c);
    AnswerIs(c, tr, moves, n, r, u);
    AnswerIs(c, tr, moves, n, r, w);
    SliceUsable(c.prepared, length, c.nodeIds[u]);
    SliceUsable(c.prepared, length, c.nodeIds[w]);
    SlicesDisjoint(c.prepared, length, c.nodeIds[u], c.nodeIds[w]);
    ProtocolFrames.SlotsApart(c.reqBases[r], Protocol.MESSAGE_SIZE, c.nodeIds[u], c.nodeIds[w], length);
  }
}
