/**
 One buffer more than there are senders is exactly what an SRQ receiver needs. With fewer, some run breaks: the
 receiver has answered the last request of all but not yet reposted its buffer, and all finish messages arrive.
 */
module ProtocolCredit {
  import opened Arithmetic
  import opened Sums
  import opened Counting
  import opened Partition
  import opened Protocol
  import opened ProtocolInvariant
  import opened ProtocolFrames
  import opened ProtocolNetworkSteps
  import opened ProtocolSafety
  import opened ProtocolMeasure
  import opened ProtocolTheorems
  import opened ProtocolProgress

  /* ---- how many requests have been answered ---- */

  ghost function Replied(c: Config, a: History): seq<nat>
    requires HistoryShape(c, a)
  {
    seq(c.workers, w requires 0 <= w < c.workers => a.done[w] + Answered(a.stage[w]))
  }

  /** Requests each receiver has answered, counted yet or not. */
  ghost function Replies(s: State): seq<int> {
    seq(|s.receivers|, r requires 0 <= r < |s.receivers| => s.receivers[r].handled + B2I(s.receivers[r].pc.Refill?))
  }

  lemma RepliesAddUp(c: Config, s: State, a: History)
    requires WellFormed(c) && Inv(c, s, a)
    ensures Prefixes(c, Replied(c, a)) && Total(Replies(s)) == Total(Replied(c, a)) <= c.workers * c.requests
    ensures Total(Replies(s)) == c.workers * c.requests ==>
              forall w :: 0 <= w < c.workers ==> a.done[w] + Answered(a.stage[w]) == c.requests
  {
    hide WorkersOk, RequestWireOk, ResponseWireOk, DispatcherOk, DispatcherCounts, PhaseOk, ReceiverOk, ReceiverPlaces,
         OccupySeq, CountedSeq, Hits;
    forall r | 0 <= r < c.receivers ensures Replies(s)[r] == ByReceiver(c, Replied(c, a))[r] {
      assert ReceiverAll(c, a, r, s.receivers[r]);
      assert HitSeq(c, a, r) == HitColumn(c, r, Replied(c, a));
    }
    assert Replies(s) == ByReceiver(c, Replied(c, a));
    ByReceiverAddsUp(c, Replied(c, a));
    CapReplies(c, a);
  }

  lemma CapReplies(c: Config, a: History)
    requires HistoryShape(c, a) && Prefixes(c, Replied(c, a))
    ensures Total(Replied(c, a)) <= c.workers * c.requests
    ensures Total(Replied(c, a)) == c.workers * c.requests ==>
              forall w :: 0 <= w < c.workers ==> a.done[w] + Answered(a.stage[w]) == c.requests
  {
    TotalCap(Replied(c, a), c.requests);
    if Total(Replied(c, a)) == c.workers * c.requests {
      forall w | 0 <= w < c.workers ensures a.done[w] + Answered(a.stage[w]) == c.requests {
        assert Replied(c, a)[w] == c.requests;
      }
    }
  }

  /* ---- running until the last answer ---- */

  ghost predicate Fails(s: State) { ReceiverNotReady in s.errors }

  /** Receiver r has answered the last request of all and not reposted its buffer yet. */
  ghost predicate LastRefill(c: Config, s: State, r: nat)
    requires WellFormed(c) && Shape(c, s)
  {
    r < c.receivers && s.receivers[r].pc.Refill? && Total(Reports(s)) == c.workers * c.requests - 1
  }

  lemma Misfit(c: Config, s: State, step: Step)
    requires WellFormed(c) && Shape(c, s) && Enabled(c, s, step) && !Fits(c, s, step)
    ensures Fails(Apply(c, s, step))
  {
    hide ReceiverShape, DispatcherShape;
  }

  /** Only a refill changes a report, by one. */
  lemma ReportsStep(c: Config, s: State, step: Step, s': State)
    requires WellFormed(c) && Next(c, s, step, s') && c.receiverSrq && Shape(c, s')
    ensures Total(Reports(s')) <= Total(Reports(s)) + 1
    ensures Total(Reports(s')) == Total(Reports(s)) || (step.ReceiverStep? && s.receivers[step.r].pc.Refill?)
    ensures !step.ReceiverStep? ==> forall r :: 0 <= r < c.receivers ==> s'.receivers[r].pc == s.receivers[r].pc
  {
    hide ReceiverShape, DispatcherShape, Work, Dispatch, ArriveResponse, ArriveRequest, Receive;
    match step
    case WorkerStep(w) => WorkReceivers(c, s, w);
    case DispatcherStep(stop) => DispatchReceivers(c, s, stop);
    case ReceiverStep(r) => ReceiveReport(c, s, r); TotalChange(Reports(s), Reports(s'), r);
    case MainStep =>
    case DeliverRequest(p) => ArriveReport(c, s, p); assert Reports(s') == Reports(s);
    case DeliverResponse(p) => ArriveReceivers(c, s, p);
  }

  lemma WorkReceivers(c: Config, s: State, w: nat)
    requires WellFormed(c) && Shape(c, s) && w < c.workers
    ensures Work(c, s, w).receivers == s.receivers
  {
  }

  lemma DispatchReceivers(c: Config, s: State, stop: bool)
    requires WellFormed(c) && Shape(c, s)
    ensures Dispatch(c, s, stop).receivers == s.receivers
  {
    hide OwnerOf, ReceiverShape;
  }

  lemma ReceiveReport(c: Config, s: State, r: nat)
    requires WellFormed(c) && Shape(c, s) && r < c.receivers && c.receiverSrq
    ensures ReceiverShape(c, s.receivers[r])
    ensures Receive(c, s.receivers[r]).handled == s.receivers[r].handled + B2I(s.receivers[r].pc.Refill?)
  {
  }

  lemma ArriveReport(c: Config, s: State, p: RequestPacket)
    requires WellFormed(c) && Shape(c, s) && p in s.reqWire
    ensures var s' := Apply(c, s, DeliverRequest(p));
            && |s'.receivers| == |s.receivers|
            && forall r :: 0 <= r < |s.receivers| ==>
                 s'.receivers[r].pc == s.receivers[r].pc && s'.receivers[r].handled == s.receivers[r].handled
  {
    hide ReceiverShape, DispatcherShape, SlotIndex;
  }

  lemma ArriveReceivers(c: Config, s: State, p: ResponsePacket)
    requires WellFormed(c) && Shape(c, s) && p in s.respWire
    ensures Apply(c, s, DeliverResponse(p)).receivers == s.receivers
  {
    hide ReceiverShape, DispatcherShape, SlotIndex;
  }

  /** While no last refill is pending, one step leaves an answer outstanding. */
  lemma NotYetLast(c: Config, s: State, a: History, step: Step, s': State)
    requires WellFormed(c) && Inv(c, s, a) && Next(c, s, step, s') && c.receiverSrq && Shape(c, s')
    requires Total(Reports(s)) < c.workers * c.requests && forall r :: !LastRefill(c, s, r)
    ensures Total(Reports(s')) < c.workers * c.requests
  {
    hide Inv, Apply, ReceiverShape, DispatcherShape;
    ReportsStep(c, s, step, s');
    if step.ReceiverStep? {
      assert !LastRefill(c, s, step.r);
    }
  }

  /** Where a run may be led: a failure, or the last answer with its buffer still held. */
  ghost predicate Reached(c: Config, t: State, b: History, r: nat)
    requires WellFormed(c)
  {
    Fails(t) || (Inv(c, t, b) && LastRefill(c, t, r))
  }

  lemma {:induction false} FollowUntilLast(c: Config, s: State, a: History, path: seq<Step>)
    returns (steps: seq<Step>, t: State, b: History, r: nat)
    requires WellFormed(c) && c.receiverSrq && Inv(c, s, a) && Works(c, s, path)
    requires Total(Reports(s)) < c.workers * c.requests
    ensures Leads(c, s, steps, t)
    ensures Reached(c, t, b, r) ||
            (Inv(c, t, b) && Measure(c, t, b) < Measure(c, s, a) && Total(Reports(t)) < c.workers * c.requests)
    decreases |path|
  {
    hide ReceiverAll, RequestWireOk, ResponseWireOk, DispatcherOk, DispatcherCounts, WorkersOk, PhaseOk, Apply, Enabled,
         Measure, Idle, ReceiverShape, DispatcherShape, Total, Reports, Fits, Fails, WellFormed;
    if q :| LastRefill(c, s, q) {
      steps, t, b, r := [], s, a, q;
    } else if !Fits(c, s, path[0]) {
      Misfit(c, s, path[0]);
      steps, t, b, r := [path[0]], Apply(c, s, path[0]), a, 0;
      assert steps[1..] == [];
    } else {
      var s' := Apply(c, s, path[0]);
      var a' := StepKeeps(c, s, a, path[0], s');
      StepMeasure(c, s, a, path[0], s', a');
      NotYetLast(c, s, a, path[0], s');
      if |path| == 1 {
        steps, t, b, r := [path[0]], s', a', 0;
        assert steps[1..] == [];
      } else {
        var rest: seq<Step>;
        rest, t, b, r := FollowUntilLast(c, s', a', path[1..]);
        steps := [path[0]] + rest;
        assert steps[1..] == rest;
      }
    }
  }

  lemma {:induction false} RunUntilLast(c: Config, s: State, a: History)
    returns (steps: seq<Step>, t: State, b: History, r: nat)
    requires WellFormed(c) && c.receiverSrq && Inv(c, s, a)
    requires Total(Reports(s)) < c.workers * c.requests
    ensures Leads(c, s, steps, t) && Reached(c, t, b, r)
    decreases Measure(c, s, a)
  {
    hide ReceiverAll, RequestWireOk, ResponseWireOk, DispatcherOk, DispatcherCounts, WorkersOk, PhaseOk, Measure, Total,
         Reports, ReceiverShape, DispatcherShape, Ended, LastRefill, Fails, WellFormed;
    MeasureNonNegative(c, s, a);
    if Ended(c, s) {
      EndedReports(c, s, a);
    }
    var path := CanProgress(c, s, a);
    steps, t, b, r := FollowUntilLast(c, s, a, path);
    if !Reached(c, t, b, r) {
      MeasureNonNegative(c, t, b);
      var rest, u, b', r' := RunUntilLast(c, t, b);
      LeadsOn(c, s, steps, t, rest, u);
      steps, t, b, r := steps + rest, u, b', r';
    }
  }

  lemma EndedReports(c: Config, s: State, a: History)
    requires WellFormed(c) && Inv(c, s, a) && Ended(c, s)
    ensures Total(Reports(s)) == c.workers * c.requests
  {
    hide ReceiverAll, RequestWireOk, ResponseWireOk, DispatcherOk, DispatcherCounts, WorkersOk, PhaseOk, ReceiverShape,
         DispatcherShape, FinishUnderWay, SentFinish;
    forall r | 0 <= r < c.receivers ensures Reports(s)[r] == ByReceiver(c, AllRequests(c))[r] {
      ReturnedIn(c, s, a, r);
    }
    ByReceiverAddsUp(c, AllRequests(c));
    TotalConst(AllRequests(c), c.requests);
    assert Reports(s) == ByReceiver(c, AllRequests(c));
  }

  /* ---- jamming the receiver ---- */

  lemma JamAnswered(c: Config, s: State, a: History, r: nat)
    requires WellFormed(c) && Inv(c, s, a) && LastRefill(c, s, r)
    ensures forall w :: 0 <= w < c.workers ==> a.done[w] + Answered(a.stage[w]) == c.requests
  {
    hide ReceiverAll, RequestWireOk, ResponseWireOk, DispatcherOk, DispatcherCounts, WorkersOk, PhaseOk, ReceiverShape,
         DispatcherShape;
    RepliesAddUp(c, s, a);
    RepliesExceed(s, r);
  }

  lemma RepliesExceed(s: State, r: nat)
    requires r < |s.receivers| && s.receivers[r].pc.Refill?
    ensures Total(Replies(s)) >= Total(Reports(s)) + 1
  {
    var extra := seq(|s.receivers|, q requires 0 <= q < |s.receivers| => B2I(s.receivers[q].pc.Refill?));
    TotalAdd(Reports(s), extra, Replies(s));
    TotalAtLeast(extra, r);
  }

  /** Once all finish messages have arrived, each takes up a buffer. */
  lemma AllOccupy(c: Config, s: State, a: History, r: nat)
    requires WellFormed(c) && Inv(c, s, a) && r < c.receivers && AllFinished(s) && s.reqWire == multiset{}
    ensures Total(OccupySeq(c, a, r)) == c.workers
  {
    hide ReceiverAll, ResponseWireOk, DispatcherOk, DispatcherCounts, PhaseOk, WorkerFlags, RequestWireOk;
    forall w | 0 <= w < c.workers ensures OccupySeq(c, a, r)[w] == 1 {
      OnWire(c, s, a, w);
      assert FinishFlags(c, s.workers[w], a.fin[w]);
      assert a.fin[w][r].FBuf? || a.fin[w][r].FBusy? || a.fin[w][r].FCounted?;
    }
    TotalFull(OccupySeq(c, a, r));
  }

  /** With no buffer to spare, all finish messages cannot have arrived. */
  lemma NotAllArrived(c: Config, s: State, a: History, r: nat)
    requires WellFormed(c) && Inv(c, s, a) && c.receiverSrq && BufferLength(c) <= c.workers
    requires r < c.receivers && s.receivers[r].pc.Refill? && s.reqWire == multiset{}
    ensures !AllFinished(s)
  {
    hide ReceiverOk, ReceiverPlaces, ResponseWireOk, DispatcherOk, DispatcherCounts, PhaseOk, WorkersOk, CountedSeq, HitSeq,
         RequestWireOk, OccupySeq, BufferLength;
    assert ReceiverAll(c, a, r, s.receivers[r]);
    if AllFinished(s) {
      AllOccupy(c, s, a, r);
    }
  }

  /** While receiver r keeps its buffer, the others get on until a message does not fit. */
  lemma JamProgress(c: Config, s: State, a: History, r: nat) returns (path: seq<Step>)
    requires WellFormed(c) && Inv(c, s, a) && c.receiverSrq && BufferLength(c) <= c.workers && LastRefill(c, s, r)
    ensures Works(c, s, path) && forall i :: 0 <= i < |path| ==> !path[i].ReceiverStep?
  {
    hide ReceiverAll, RequestWireOk, ResponseWireOk, DispatcherOk, DispatcherCounts, WorkersOk, ReceiverShape, PhaseOk,
         DispatcherShape, Idle, Wanted, Total, Reports, Polling;
    if step :| Enabled(c, s, step) && !step.ReceiverStep? && !Idle(c, s, step) {
      path := [step];
    } else {
      QuietMeansPolling(c, s);
      JamWanted(c, s, a, r);
      path := DriveDispatcher(c, s, false);
    }
  }

  lemma JamWanted(c: Config, s: State, a: History, r: nat)
    requires WellFormed(c) && Inv(c, s, a) && c.receiverSrq && BufferLength(c) <= c.workers && LastRefill(c, s, r)
    requires Polling(c, s)
    ensures !s.dpc.Halted? && Wanted(c, s)
  {
    hide ReceiverAll, RequestWireOk, ResponseWireOk, DispatcherOk, DispatcherCounts, ReceiverShape,
         DispatcherShape, Wanted, WorkersOk;
    NotAllArrived(c, s, a, r);
    SomebodySpins(c, s);
    var w :| 0 <= w < c.workers && s.workers[w].Spin?;
    JamAnswered(c, s, a, r);
    AnsweredSpinner(c, s, a, w);
    LandedWanted(c, s, a, w);
  }

  lemma SomebodySpins(c: Config, s: State)
    requires WellFormed(c) && Shape(c, s) && Polling(c, s)
    ensures AllFinished(s) || exists w :: 0 <= w < c.workers && s.workers[w].Spin?
  {
    hide ReceiverShape, DispatcherShape;
    if forall w :: 0 <= w < c.workers ==> !s.workers[w].Spin? {
      assert AllArrived(s);
    }
  }

  lemma AnsweredSpinner(c: Config, s: State, a: History, w: nat)
    requires WellFormed(c) && Inv(c, s, a) && w < c.workers && s.workers[w].Spin? && Polling(c, s)
    requires a.done[w] + Answered(a.stage[w]) == c.requests
    ensures a.stage[w].Landed? || a.stage[w].Taken?
  {
    hide ReceiverAll, RequestWireOk, ResponseWireOk, DispatcherOk, DispatcherCounts, ReceiverShape, PhaseOk, Request;
    assert WorkerFlags(c, w, s.workers[w], a.done[w], a.stage[w], s.reqSlots[w], s.transfered[w], s.mailboxes[w], s.dpc);
    OnWire(c, s, a, w);
  }

  lemma {:induction false} JamFollow(c: Config, s: State, a: History, r: nat, path: seq<Step>)
    returns (steps: seq<Step>, t: State, b: History)
    requires WellFormed(c) && c.receiverSrq && Inv(c, s, a) && LastRefill(c, s, r)
    requires Works(c, s, path) && forall i :: 0 <= i < |path| ==> !path[i].ReceiverStep?
    ensures Leads(c, s, steps, t)
    ensures Fails(t) || (Inv(c, t, b) && LastRefill(c, t, r) && Measure(c, t, b) < Measure(c, s, a))
    decreases |path|
  {
    hide ReceiverAll, RequestWireOk, ResponseWireOk, DispatcherOk, DispatcherCounts, WorkersOk, PhaseOk, Apply, Enabled,
         Measure, Idle, ReceiverShape, DispatcherShape, Total, Reports, Fits, Fails, WellFormed;
    var s' := Apply(c, s, path[0]);
    if !Fits(c, s, path[0]) {
      Misfit(c, s, path[0]);
      steps, t, b := [path[0]], s', a;
      assert steps[1..] == [];
    } else {
      var a' := StepKeeps(c, s, a, path[0], s');
      StepMeasure(c, s, a, path[0], s', a');
      ReportsStep(c, s, path[0], s');
      if |path| == 1 {
        steps, t, b := [path[0]], s', a';
        assert steps[1..] == [];
      } else {
        var rest: seq<Step>;
        rest, t, b := JamFollow(c, s', a', r, path[1..]);
        steps := [path[0]] + rest;
        assert steps[1..] == rest;
      }
    }
  }

  lemma {:induction false} JamUntilFailure(c: Config, s: State, a: History, r: nat) returns (steps: seq<Step>, t: State)
    requires WellFormed(c) && Inv(c, s, a) && c.receiverSrq && BufferLength(c) <= c.workers && LastRefill(c, s, r)
    ensures Leads(c, s, steps, t) && Fails(t)
    decreases Measure(c, s, a)
  {
    hide ReceiverAll, RequestWireOk, ResponseWireOk, DispatcherOk, DispatcherCounts, WorkersOk, PhaseOk, Measure,
         ReceiverShape, DispatcherShape, LastRefill, Fails, WellFormed;
    MeasureNonNegative(c, s, a);
    var path := JamProgress(c, s, a, r);
    var b: History;
    steps, t, b := JamFollow(c, s, a, r, path);
    if !Fails(t) {
      var rest, u := JamUntilFailure(c, t, b, r);
      LeadsOn(c, s, steps, t, rest, u);
      steps, t := steps + rest, u;
    }
  }

  /* ---- the exact condition ---- */

  lemma {:induction false} LeadsRun(c: Config, s: State, steps: seq<Step>, t: State) returns (tr: seq<State>)
    requires WellFormed(c) && Leads(c, s, steps, t)
    ensures |tr| == |steps| + 1 && tr[0] == s && tr[|steps|] == t
    ensures forall n :: 0 <= n < |steps| ==> Next(c, tr[n], steps[n], tr[n + 1])
    decreases |steps|
  {
    hide Apply, Enabled, Shape;
    if steps == [] {
      tr := [s];
    } else {
      var s' := Apply(c, s, steps[0]);
      var rest := LeadsRun(c, s', steps[1..], t);
      tr := [s] + rest;
      forall n | 0 <= n < |steps| ensures Next(c, tr[n], steps[n], tr[n + 1]) {
        if n > 0 {
          assert Next(c, rest[n - 1], steps[1..][n - 1], rest[n]);
        }
      }
    }
  }

  /** Without the spare buffer some run has a message arrive at a receiver that is not ready. */
  lemma CreditNeeded(c: Config) returns (tr: seq<State>, steps: seq<Step>)
    requires WellFormed(c) && !EnoughCredit(c)
    ensures IsRun(c, tr, steps) && Fails(tr[|steps|])
  {
    hide Inv, Leads, Measure, LastRefill, BufferLength, Init;
    InitOk(c);
    InitReports(c);
    var first, t, b, r := RunUntilLast(c, Init(c), InitHistory(c));
    if Fails(t) {
      steps := first;
    } else {
      var rest, u := JamUntilFailure(c, t, b, r);
      LeadsOn(c, Init(c), first, t, rest, u);
      steps, t := first + rest, u;
    }
    tr := LeadsRun(c, Init(c), steps, t);
  }

  lemma InitReports(c: Config)
    requires WellFormed(c) && !EnoughCredit(c)
    ensures Total(Reports(Init(c))) < c.workers * c.requests && BufferLength(c) <= c.workers
  {
    TotalZero(Reports(Init(c)));
    ProductPositive(c.workers, c.requests);
  }

  lemma ProductPositive(x: nat, y: nat)
    requires x > 0 && y > 0
    ensures x * y > 0
  {
  }

  /** No run of this configuration ever fails. */
  ghost predicate Safe(c: Config)
    requires WellFormed(c)
  {
    forall tr: seq<State>, steps: seq<Step>, n: nat :: IsRun(c, tr, steps) && n < |tr| ==> tr[n].errors == {}
  }

  /** A configuration is safe exactly if an SRQ receiver with requests to answer has a buffer to spare. */
  lemma SafeIffCredit(c: Config)
    requires WellFormed(c)
    ensures Safe(c) <==> EnoughCredit(c)
  {
    hide IsRun, EnoughCredit;
    if EnoughCredit(c) {
      forall tr: seq<State>, steps: seq<Step>, n: nat | IsRun(c, tr, steps) && n < |tr|
        ensures tr[n].errors == {}
      {
        RunLength(c, tr, steps);
        NoErrors(c, tr, steps, n);
      }
    } else {
      var tr, steps := CreditNeeded(c);
      RunLength(c, tr, steps);
      assert tr[|steps|].errors != {};
    }
  }

  /** In terms of node IDs: safe exactly if some ID below the largest sender's is not a sender's. */
  lemma SafeIffSpareId(c: Config)
    requires WellFormed(c) && c.receiverSrq && c.requests > 0
    ensures Safe(c) <==> exists id: nat :: id < MaxOf(c.nodeIds) && id !in c.nodeIds
  {
    SafeIffCredit(c);
    SpareIdGivesCredit(c);
  }
}
