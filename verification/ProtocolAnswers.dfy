/** What the receivers answer over a whole run, seen from one worker. */
module ProtocolAnswers {
  import opened Protocol
  import opened ProtocolInvariant
  import opened ProtocolFrames
  import opened ProtocolSafety
  import opened ProtocolTheorems

  /** The response a step posts for worker w, if any. */
  function AnswerPosted(c: Config, s: State, step: Step, w: nat): seq<ResponsePacket>
    requires WellFormed(c) && Shape(c, s)
  {
    if step.ReceiverStep? && step.r < c.receivers && s.receivers[step.r].pc.Transfer? then
      var rc := s.receivers[step.r];
      assert ReceiverShape(c, rc);
      var m := rc.mem[rc.pc.b];
      if m.origin == w then [ResponsePacket(step.r, m.id, m.destinationNodeID, m.rdmaPtr, w)] else []
    else
      []
  }

  /** What the receivers have posted in answer to worker w in the first n steps. */
  ghost function AnswerLog(c: Config, tr: seq<State>, steps: seq<Step>, n: nat, w: nat): seq<ResponsePacket>
    requires WellFormed(c) && IsRun(c, tr, steps) && n <= |steps|
  {
    if n == 0 then []
    else
      assert Next(c, tr[n - 1], steps[n - 1], tr[n]);
      AnswerLog(c, tr, steps, n - 1, w) + AnswerPosted(c, tr[n - 1], steps[n - 1], w)
  }

  /** The answers to a worker's first k requests, in order. */
  ghost function FirstReplies(c: Config, w: nat, k: nat): seq<ResponsePacket>
    requires WellFormed(c) && w < c.workers && k <= c.requests
  {
    if k == 0 then [] else FirstReplies(c, w, k - 1) + [ReplyPacket(c, w, k - 1)]
  }

  /** Requests of worker w that have been answered, by the history. */
  ghost function Replied(a: History, w: nat): nat
    requires w < |a.done| && w < |a.stage|
  {
    a.done[w] + Answered(a.stage[w])
  }

  ghost predicate Counts(c: Config, s: State, a: History, step: Step, w: nat)
    requires WellFormed(c) && Shape(c, s) && HistoryShape(c, a) && w < c.workers && Enabled(c, s, step)
  {
    var a' := HistoryAfter(c, s, a, step);
    var posted := AnswerPosted(c, s, step, w);
    && w < |a'.done| && w < |a'.stage| && Replied(a', w) == Replied(a, w) + |posted|
    && (posted != [] ==> Replied(a, w) < c.requests && posted == [ReplyPacket(c, w, Replied(a, w))])
  }

  /** Only a receiver's response moves a request to the answered ones, and it is the answer to that request. */
  lemma StepCounts(c: Config, s: State, a: History, step: Step, w: nat)
    requires WellFormed(c) && Shape(c, s) && Inv(c, s, a) && Enabled(c, s, step) && w < c.workers
    ensures Counts(c, s, a, step, w)
  {
    hide ReceiverAll, RequestWireOk, ResponseWireOk, DispatcherOk, DispatcherCounts, WorkersOk, PhaseOk, Counts;
    match step
    case WorkerStep(u) => WorkCounts(c, s, a, u, w);
    case DispatcherStep(stop) => DispatchCounts(c, s, a, stop, w);
    case ReceiverStep(r) =>
      assert ReceiverAll(c, a, r, s.receivers[r]);
      ReceiveCounts(c, s, a, r, w);
    case MainStep => assert Counts(c, s, a, step, w) by { StillCounts(c, s, a, w); }
    case DeliverRequest(p) => RequestCounts(c, s, a, p, w);
    case DeliverResponse(p) => ResponseCounts(c, s, a, p, w);
  }

  lemma StillCounts(c: Config, s: State, a: History, w: nat)
    requires WellFormed(c) && Shape(c, s) && HistoryShape(c, a) && w < c.workers && Enabled(c, s, MainStep)
    ensures Counts(c, s, a, MainStep, w)
  {
  }

  lemma WorkCounts(c: Config, s: State, a: History, u: nat, w: nat)
    requires WellFormed(c) && Shape(c, s) && HistoryShape(c, a) && WorkersOk(c, s, a) && w < c.workers
    requires Enabled(c, s, WorkerStep(u))
    ensures Counts(c, s, a, WorkerStep(u), w)
  {
    hide Request, ReplyPacket, ReceiverShape, DispatcherShape, FinishFlags;
    assert WorkerFlags(c, u, s.workers[u], a.done[u], a.stage[u], s.reqSlots[u], s.transfered[u], s.mailboxes[u], s.dpc);
  }

  lemma PollsAsConfigured(c: Config, dpc: DispatcherPc, dPosted: seq<nat>, dCq: seq<nat>)
    requires DispatcherShape(c, dpc) && DispatcherQueuesOk(c, dpc, dPosted, dCq)
    ensures (dpc.PollFlag? ==> !c.dispatcherSrq) && (dpc.PollQueue? ==> c.dispatcherSrq)
  {
  }

  lemma DispatchCounts(c: Config, s: State, a: History, stop: bool, w: nat)
    requires WellFormed(c) && Shape(c, s) && HistoryShape(c, a) && WorkersOk(c, s, a) && w < c.workers
    requires DispatcherOk(c, a, s.dpc, s.dPosted, s.dCq, s.respSlots) && Enabled(c, s, DispatcherStep(stop))
    ensures Counts(c, s, a, DispatcherStep(stop), w)
  {
    hide Counts, WorkerFlags, FinishFlags, SlotOk, DispatcherPlace, DispatcherQueuesOk, HistoryShape, WellFormed;
    if s.dpc.PollFlag? || s.dpc.PollQueue? || s.dpc.Handle? {
      TakenCounts(c, s, a, stop, w);
    } else {
      HandedCounts(c, s, a, stop, w);
    }
  }

  /** Steps at a worker's own cells. */
  lemma HandedCounts(c: Config, s: State, a: History, stop: bool, w: nat)
    requires WellFormed(c) && Shape(c, s) && HistoryShape(c, a) && WorkersOk(c, s, a) && w < c.workers
    requires Enabled(c, s, DispatcherStep(stop)) && !s.dpc.PollFlag? && !s.dpc.PollQueue? && !s.dpc.Handle?
    ensures Counts(c, s, a, DispatcherStep(stop), w)
  {
    hide Request, ReplyPacket, ReceiverShape, FinishFlags;
    var u := match s.dpc
      case Scan(k) => k
      case Forward(k) => k
      case EmptySlot(_, _, u) => u
      case FlipMailbox(_, _, u) => u
      case _ => 0;
    if u < c.workers {
      assert WorkerFlags(c, u, s.workers[u], a.done[u], a.stage[u], s.reqSlots[u], s.transfered[u], s.mailboxes[u], s.dpc);
    }
  }

  /** Steps at a response slot, whose owner waits for the response in it. */
  lemma TakenCounts(c: Config, s: State, a: History, stop: bool, w: nat)
    requires WellFormed(c) && Shape(c, s) && HistoryShape(c, a) && w < c.workers
    requires DispatcherOk(c, a, s.dpc, s.dPosted, s.dCq, s.respSlots) && Enabled(c, s, DispatcherStep(stop))
    requires s.dpc.PollFlag? || s.dpc.PollQueue? || s.dpc.Handle?
    ensures Counts(c, s, a, DispatcherStep(stop), w)
  {
    hide Request, ReplyPacket, ReceiverShape, DispatcherPlace, DispatcherQueuesOk, OwnerOf;
    PollsAsConfigured(c, s.dpc, s.dPosted, s.dCq);
    match s.dpc
    case PollFlag(k) =>
      if k < c.workers {
        assert SlotOk(c, a, s.dpc, s.dCq, s.respSlots[k], k);
        OwnSlot(c, s.respSlots[k], k);
      }
    case PollQueue(_) =>
      if s.dCq != [] {
        assert s.dCq[0] in s.dCq;
        assert SlotOk(c, a, s.dpc, s.dCq, s.respSlots[s.dCq[0]], s.dCq[0]);
      }
    case Handle(batch, j) =>
      if j < |batch| {
        assert batch[j] in batch && batch[j] == batch[j..][0];
        assert SlotOk(c, a, s.dpc, s.dCq, s.respSlots[batch[j]], batch[j]);
      }
  }

  lemma OwnSlot(c: Config, slot: Response, k: nat)
    requires c.respSize > 0 && !c.dispatcherSrq
    ensures OwnerOf(c, slot, k) == k
  {
  }

  lemma ReceiveCounts(c: Config, s: State, a: History, r: nat, w: nat)
    requires WellFormed(c) && Shape(c, s) && HistoryShape(c, a) && w < c.workers
    requires Enabled(c, s, ReceiverStep(r)) && ReceiverAll(c, a, r, s.receivers[r])
    ensures Counts(c, s, a, ReceiverStep(r), w)
  {
    hide ReceiverCounts, ReceiverQueuesOk, DispatcherShape, ResponseId, Target, SlotAddress, Answers;
    var rc := s.receivers[r];
    assert ReceiverShape(c, rc);
    if rc.pc.Transfer? {
      var m := rc.mem[rc.pc.b];
      assert ReceiverPlace(c, m.origin, a.done[m.origin], a.stage[m.origin], r, rc);
    }
    if rc.pc.Poll? {
      var pc := Receive(c, rc).pc;
      assert c.receiverSrq && rc.cq != [] ==> rc.cq[0] in rc.cq;
      if pc.Test? {
        assert UnreadOk(c, a, r, rc, pc.b);
      }
    }
  }

  lemma RequestCounts(c: Config, s: State, a: History, p: RequestPacket, w: nat)
    requires WellFormed(c) && Shape(c, s) && HistoryShape(c, a) && w < c.workers
    requires p in s.reqWire && RequestWireOk(c, a, s.reqWire)
    ensures Counts(c, s, a, DeliverRequest(p), w)
  {
    hide Request, ReplyPacket, ReceiverShape, DispatcherShape, FinishPacket, ForwardedPacket;
    assert RequestPacketOk(c, a, p);
  }

  lemma ResponseCounts(c: Config, s: State, a: History, p: ResponsePacket, w: nat)
    requires WellFormed(c) && Shape(c, s) && HistoryShape(c, a) && w < c.workers
    requires p in s.respWire && ResponseWireOk(c, a, s.respWire)
    ensures Counts(c, s, a, DeliverResponse(p), w)
  {
    hide Request, ReplyPacket, ReceiverShape, DispatcherShape;
    assert ResponsePacketOk(c, a, p);
  }

  lemma {:induction false} LogIs(c: Config, tr: seq<State>, steps: seq<Step>, n: nat, w: nat) returns (a: History)
    requires WellFormed(c) && EnoughCredit(c) && IsRun(c, tr, steps) && n <= |steps| && w < c.workers
    ensures |tr| == |steps| + 1 && Shape(c, tr[n]) && Inv(c, tr[n], a) && HistoryShape(c, a)
    ensures Replied(a, w) <= c.requests && AnswerLog(c, tr, steps, n, w) == FirstReplies(c, w, Replied(a, w))
  {
    hide WorkersOk, ReceiverAll, RequestWireOk, ResponseWireOk, DispatcherOk, DispatcherCounts, PhaseOk, EnoughCredit, Apply,
         HistoryAfter, Enabled, Shape, WellFormed, AnswerPosted, ReplyPacket;
    if n == 0 {
      InitOk(c);
      a := InitHistory(c);
    } else {
      var b := LogIs(c, tr, steps, n - 1, w);
      RunNext(c, tr, steps, n - 1);
      StepFits(c, tr[n - 1], b, steps[n - 1], tr[n]);
      a := StepKeeps(c, tr[n - 1], b, steps[n - 1], tr[n]);
      StepCounts(c, tr[n - 1], b, steps[n - 1], w);
    }
  }

  lemma {:induction false} RepliesAre(c: Config, w: nat, n: nat)
    requires WellFormed(c) && w < c.workers && n <= c.requests
    ensures |FirstReplies(c, w, n)| == n
    ensures forall k :: 0 <= k < n ==> FirstReplies(c, w, n)[k] == ReplyPacket(c, w, k)
  {
    hide ReplyPacket;
    if n > 0 {
      RepliesAre(c, w, n - 1);
    }
  }

  /** From the receiver the k-th request went to, the prepared response it asked for, to the worker's own slot. */
  ghost predicate AnswersRequest(c: Config, p: ResponsePacket, w: nat, k: nat)
    requires WellFormed(c) && w < c.workers && k < c.requests
  {
    && p.from == Target(c, w, k) && p.slot == ResponseId(c, w, k) && p.to == c.dispatcherId
    && SlotIndex(c.respBase, c.respSize, p.addr) == w
  }

  lemma ReplyAnswers(c: Config, w: nat, k: nat)
    requires WellFormed(c) && w < c.workers && k < c.requests
    ensures AnswersRequest(c, ReplyPacket(c, w, k), w, k)
  {
    AddressRoundTrip(c.respBase, c.respSize, w);
  }

  /**
   In every run: the answers posted for a worker are those to its first requests, in order, each once, from the
   receiver the request went to; a worker has taken its mail at most as often as it was answered, and at most one
   time less; and no answer is posted before its request was forwarded.
   */
  lemma AnsweredExactlyOnce(c: Config, tr: seq<State>, steps: seq<Step>, n: nat, w: nat)
    requires WellFormed(c) && EnoughCredit(c) && IsRun(c, tr, steps) && n <= |steps| && w < c.workers
    ensures Shape(c, tr[n])
    ensures var log := AnswerLog(c, tr, steps, n, w);
            && |log| <= c.requests && (forall k :: 0 <= k < |log| ==> AnswersRequest(c, log[k], w, k))
            && Index(c, tr[n].workers[w]) <= |log| <= |ForwardLog(c, tr, steps, n, w)|
            && |log| <= Index(c, tr[n].workers[w]) + if tr[n].workers[w].Spin? then 1 else 0
  {
    hide IsRun, AnswerLog, FirstReplies, FirstRequests, ForwardLog, Sent, Inv, EnoughCredit, Shape, AnswersRequest, ReplyPacket;
    var a := LogIs(c, tr, steps, n, w);
    ForwardedExactlyOnce(c, tr, steps, n, w);
    FlagsKnown(c, tr[n], a, w);
    SentIs(c, tr[n], a, w);
    RepliesAre(c, w, Replied(a, w));
    FirstRequestsLength(c, w, Sent(c, tr[n], w));
    forall k | 0 <= k < Replied(a, w) ensures AnswersRequest(c, AnswerLog(c, tr, steps, n, w)[k], w, k) {
      ReplyAnswers(c, w, k);
    }
  }
}
