/**
 No deadlock. From every reachable state some thread needs only empty polls of its own to reach a step
 that does something, such steps are bounded in number, and so every run can be completed.
 */
module ProtocolProgress {
  import opened Sums
  import opened Partition
  import opened Protocol
  import opened ProtocolInvariant
  import opened ProtocolFrames
  import opened ProtocolSafety
  import opened ProtocolMeasure
  import opened ProtocolTheorems
  import opened ProtocolNetworkSteps

  /* ---- the measure bounds the steps that do something ---- */

  lemma MeasureNonNegative(c: Config, s: State, a: History)
    requires WellFormed(c) && Inv(c, s, a)
    ensures Measure(c, s, a) >= 0
  {
    hide ReceiverAll, RequestWireOk, ResponseWireOk, DispatcherOk, DispatcherCounts, PhaseOk, Standing, WorkersOk;
    forall w | 0 <= w < c.workers ensures Standings(c, s.workers, a)[w] >= 0 {
      StandingNonNegative(c, s, a, w);
    }
    TotalNonNegative(Standings(c, s.workers, a));
    TotalNonNegative(ReceiverRanks(s.receivers));
  }

  lemma StandingNonNegative(c: Config, s: State, a: History, w: nat)
    requires WellFormed(c) && Shape(c, s) && HistoryShape(c, a) && WorkersOk(c, s, a) && w < c.workers
    ensures Standing(c, s.workers[w], a.stage[w], a.fin[w]) >= 0
  {
    assert WorkerFlags(c, w, s.workers[w], a.done[w], a.stage[w], s.reqSlots[w], s.transfered[w], s.mailboxes[w], s.dpc);
    assert FinishFlags(c, s.workers[w], a.fin[w]);
    TotalNonNegative(RowRanks(c, a.fin[w]));
  }

  lemma InitMeasure(c: Config)
    requires WellFormed(c) && Shape(c, Init(c)) && HistoryShape(c, InitHistory(c))
    ensures Measure(c, Init(c), InitHistory(c)) == c.workers * (200 * c.requests + 50 * c.receivers + 30) + 2
  {
    var s, a := Init(c), InitHistory(c);
    forall w | 0 <= w < c.workers
      ensures Standings(c, s.workers, a)[w] == 200 * c.requests + 50 * c.receivers + 30
    {
      TotalZero(RowRanks(c, a.fin[w]));
    }
    TotalConst(Standings(c, s.workers, a), 200 * c.requests + 50 * c.receivers + 30);
    TotalZero(ReceiverRanks(s.receivers));
  }

  /** Number of steps among the first n of a run that are not empty polls. */
  ghost function BusySteps(c: Config, tr: seq<State>, steps: seq<Step>, n: nat): nat
    requires WellFormed(c) && IsRun(c, tr, steps) && n <= |steps|
  {
    if n == 0 then 0
    else
      assert Next(c, tr[n - 1], steps[n - 1], tr[n]);
      BusySteps(c, tr, steps, n - 1) + if Idle(c, tr[n - 1], steps[n - 1]) then 0 else 1
  }

  lemma {:induction false} BusyMeasure(c: Config, tr: seq<State>, steps: seq<Step>, n: nat) returns (a: History)
    requires WellFormed(c) && EnoughCredit(c) && IsRun(c, tr, steps) && n <= |steps|
    ensures Inv(c, tr[n], a)
    ensures BusySteps(c, tr, steps, n) + Measure(c, tr[n], a) <= c.workers * (200 * c.requests + 50 * c.receivers + 30) + 2
  {
    hide ReceiverAll, RequestWireOk, ResponseWireOk, DispatcherOk, DispatcherCounts, PhaseOk, WorkersOk, Next, Measure,
         ReceiverShape, DispatcherShape, EnoughCredit, Idle, Init;
    if n == 0 {
      RunStart(c, tr, steps);
      InitOk(c);
      InitMeasure(c);
      a := InitHistory(c);
    } else {
      var b := BusyMeasure(c, tr, steps, n - 1);
      RunNext(c, tr, steps, n - 1);
      StepFits(c, tr[n - 1], b, steps[n - 1], tr[n]);
      a := StepKeeps(c, tr[n - 1], b, steps[n - 1], tr[n]);
      StepMeasure(c, tr[n - 1], b, steps[n - 1], tr[n], a);
    }
  }

  lemma RunStart(c: Config, tr: seq<State>, steps: seq<Step>)
    requires WellFormed(c) && IsRun(c, tr, steps)
    ensures tr[0] == Init(c)
  {
  }

  /** However the threads are interleaved, a run has only so many steps that are not empty polls. */
  lemma BusyStepsBounded(c: Config, tr: seq<State>, steps: seq<Step>, n: nat)
    requires WellFormed(c) && EnoughCredit(c) && IsRun(c, tr, steps) && n <= |steps|
    ensures BusySteps(c, tr, steps, n) <= c.workers * (200 * c.requests + 50 * c.receivers + 30) + 2
  {
    hide Inv, Measure, BusySteps, IsRun;
    RunLength(c, tr, steps);
    var a := BusyMeasure(c, tr, steps, n);
    MeasureNonNegative(c, tr[n], a);
  }

  /* ---- somebody can always do something ---- */

  /** Every thread has ended. */
  ghost predicate Ended(c: Config, s: State)
    requires WellFormed(c) && Shape(c, s)
  {
    AllFinished(s) && !s.running && s.dpc.Halted? && forall r :: 0 <= r < c.receivers ==> s.receivers[r].pc.Returned?
  }

  /** Some empty polls, then a step that does something. */
  ghost predicate Works(c: Config, s: State, steps: seq<Step>)
    requires WellFormed(c)
    decreases |steps|
  {
    && steps != [] && Shape(c, s) && Enabled(c, s, steps[0])
    && if |steps| == 1 then !Idle(c, s, steps[0])
       else Idle(c, s, steps[0]) && Works(c, Apply(c, s, steps[0]), steps[1..])
  }

  /** All of them are steps of one thread. */
  ghost predicate OneThread(steps: seq<Step>) {
    forall i :: 0 <= i < |steps| ==> steps[i] == steps[0]
  }

  /** How many moves of its loop the dispatcher is away from the top of it. */
  function ToTop(c: Config, pc: DispatcherPc): nat {
    match pc
    case PollFlag(k) => if k <= c.workers then c.workers - k + 1 else 0
    case PollQueue(_) => 1
    case Scan(k) => if k <= c.workers then (c.workers - k) + c.workers + 2 else 0
    case _ => 0
  }

  /** The dispatcher has something to find before it is at the top of its loop again. */
  ghost predicate Ahead(c: Config, s: State)
    requires WellFormed(c) && Shape(c, s)
  {
    || (s.dpc.Scan? && exists w :: s.dpc.k <= w < c.workers && s.reqSlots[w].kind != EMPTY && !s.transfered[w])
    || ((s.dpc.Scan? || s.dpc.PollFlag?) && !c.dispatcherSrq
        && exists k :: 0 <= k < c.workers && (s.dpc.PollFlag? ==> s.dpc.k <= k) && s.respSlots[k].transferFlag == 1)
    || ((s.dpc.Scan? || s.dpc.PollQueue?) && c.dispatcherSrq && s.dCq != [])
  }

  /** There is something for the dispatcher to do: a request to forward, a response, or the end. */
  ghost predicate Wanted(c: Config, s: State)
    requires WellFormed(c) && Shape(c, s)
  {
    || !s.running
    || (exists w :: 0 <= w < c.workers && s.reqSlots[w].kind != EMPTY && !s.transfered[w])
    || (!c.dispatcherSrq && exists k :: 0 <= k < c.workers && s.respSlots[k].transferFlag == 1)
    || (c.dispatcherSrq && s.dCq != [])
  }

  /** An empty poll of the dispatcher moves its loop cursor and nothing else. */
  lemma IdleTurn(c: Config, s: State)
    requires WellFormed(c) && Shape(c, s) && IdleDispatch(c, s)
    ensures var s' := Dispatch(c, s, false);
            && s' == s.(dpc := s'.dpc) && Shape(c, s')
            && (s.dpc.Top? ==> s'.dpc == Scan(0))
            && (!s.dpc.Top? ==> ToTop(c, s'.dpc) < ToTop(c, s.dpc))
            && (s'.dpc.Top? || s'.dpc.Scan? || s'.dpc.PollFlag? || s'.dpc.PollQueue?)
            && (s.dpc.Scan? && s'.dpc.PollQueue? ==> c.dispatcherSrq)
            && (s.dpc.Scan? && s'.dpc.PollFlag? ==> !c.dispatcherSrq && s'.dpc.k == 0)
  {
    hide ReceiverShape;
  }

  lemma AheadStays(c: Config, s: State)
    requires WellFormed(c) && Shape(c, s) && IdleDispatch(c, s) && Ahead(c, s)
    requires Shape(c, Dispatch(c, s, false))
    ensures Ahead(c, Dispatch(c, s, false)) && !s.dpc.Top?
  {
    hide ReceiverShape;
  }

  lemma AheadFromTop(c: Config, s: State)
    requires WellFormed(c) && Shape(c, s) && IdleDispatch(c, s) && s.dpc.Top? && Wanted(c, s)
    requires Shape(c, Dispatch(c, s, false))
    ensures Ahead(c, Dispatch(c, s, false))
  {
    hide ReceiverShape;
  }

  /** With something to do, the dispatcher gets to do something within two turns of its loop. */
  lemma {:induction false} DriveDispatcher(c: Config, s: State, ahead: bool) returns (steps: seq<Step>)
    requires WellFormed(c) && Shape(c, s) && !s.dpc.Halted? && Wanted(c, s)
    requires ahead ==> Ahead(c, s)
    ensures Works(c, s, steps) && forall i :: 0 <= i < |steps| ==> steps[i] == DispatcherStep(false)
    decreases if ahead then 0 else 1, ToTop(c, s.dpc)
  {
    hide Ahead, ReceiverShape, DispatcherShape, Dispatch, ToTop, IdleDispatch;
    var step := DispatcherStep(false);
    if IdleDispatch(c, s) {
      IdleTurn(c, s);
      var s' := Dispatch(c, s, false);
      var rest: seq<Step>;
      if ahead {
        AheadStays(c, s);
        rest := DriveDispatcher(c, s', true);
      } else if s.dpc.Top? {
        AheadFromTop(c, s);
        rest := DriveDispatcher(c, s', true);
      } else {
        rest := DriveDispatcher(c, s', false);
      }
      steps := [step] + rest;
      assert steps[1..] == rest;
    } else {
      steps := [step];
    }
  }

  /** A BUF receiver's scan reaches every slot. */
  lemma {:induction false} DriveReceiver(c: Config, s: State, r: nat, b: nat) returns (steps: seq<Step>)
    requires WellFormed(c) && Shape(c, s) && r < c.receivers && s.receivers[r].pc.Poll? && b < BufferLength(c)
    requires if c.receiverSrq then s.receivers[r].cq != [] else s.receivers[r].mem[b].kind != EMPTY
    ensures Works(c, s, steps) && forall i :: 0 <= i < |steps| ==> steps[i] == ReceiverStep(r)
    decreases if s.receivers[r].pc.pos <= b then b - s.receivers[r].pc.pos else b + BufferLength(c) - s.receivers[r].pc.pos
  {
    hide DispatcherShape, BufferLength;
    var rc := s.receivers[r];
    var step := ReceiverStep(r);
    if Idle(c, s, step) {
      var s' := Apply(c, s, step);
      assert s'.receivers == s.receivers[r := rc.(pc := Receive(c, rc).pc)];
      var rest := DriveReceiver(c, s', r, b);
      steps := [step] + rest;
      assert steps[1..] == rest;
    } else {
      steps := [step];
    }
  }

  /** Every step that can be taken is an empty poll. */
  ghost predicate Quiet(c: Config, s: State)
    requires WellFormed(c) && Shape(c, s)
  {
    forall step :: Enabled(c, s, step) ==> Idle(c, s, step)
  }

  /** What everything but the receivers looks like when all threads poll in vain or have ended. */
  ghost predicate Polling(c: Config, s: State)
    requires WellFormed(c) && Shape(c, s)
  {
    && s.reqWire == multiset{} && s.respWire == multiset{}
    && (forall w :: 0 <= w < c.workers ==>
          || s.workers[w].Finished? || (s.workers[w].Spin? && s.mailboxes[w] != 1)
          || (s.workers[w].AtBarrier? && !AllArrived(s)))
    && (s.dpc.Top? || s.dpc.Scan? || s.dpc.PollFlag? || s.dpc.PollQueue? || s.dpc.Halted?)
    && (s.dpc.PollQueue? ==> s.dpc.batch == [])
    && !(s.running && AllFinished(s))
  }

  ghost predicate AllPolling(c: Config, s: State)
    requires WellFormed(c) && Shape(c, s)
  {
    && Polling(c, s)
    && forall r :: 0 <= r < c.receivers ==> s.receivers[r].pc.Poll? || s.receivers[r].pc.Returned?
  }

  lemma QuietMeansPolling(c: Config, s: State)
    requires WellFormed(c) && Shape(c, s)
    requires forall step :: Enabled(c, s, step) && !step.ReceiverStep? ==> Idle(c, s, step)
    ensures Polling(c, s)
  {
    hide ReceiverShape, DispatcherShape, Receive, AllArrived, AllFinished;
    forall p ensures p !in s.reqWire {
      assert !Idle(c, s, DeliverRequest(p));
      assert !Enabled(c, s, DeliverRequest(p));
    }
    forall p ensures p !in s.respWire {
      assert !Idle(c, s, DeliverResponse(p));
      assert !Enabled(c, s, DeliverResponse(p));
    }
    assert !Idle(c, s, MainStep);
    assert !Enabled(c, s, MainStep);
    assert s.dpc.Halted? || Enabled(c, s, DispatcherStep(false));
    forall w | 0 <= w < c.workers
      ensures s.workers[w].Finished? || (s.workers[w].Spin? && s.mailboxes[w] != 1)
              || (s.workers[w].AtBarrier? && !AllArrived(s))
    {
      assert Enabled(c, s, WorkerStep(w)) ==> Idle(c, s, WorkerStep(w));
    }
  }

  lemma QuietMeansAllPolling(c: Config, s: State)
    requires WellFormed(c) && Shape(c, s) && Quiet(c, s)
    ensures AllPolling(c, s)
  {
    QuietMeansPolling(c, s);
    hide Polling, ReceiverShape, DispatcherShape;
    forall r | 0 <= r < c.receivers ensures s.receivers[r].pc.Poll? || s.receivers[r].pc.Returned? {
      assert Enabled(c, s, ReceiverStep(r)) ==> Idle(c, s, ReceiverStep(r));
    }
  }

  /** Receiver r polls and has something in buffer b (BUF) or on its queue (SRQ). */
  ghost predicate Reaches(c: Config, s: State, r: nat, b: nat)
    requires WellFormed(c) && Shape(c, s)
  {
    && r < c.receivers && b < BufferLength(c) && s.receivers[r].pc.Poll?
    && if c.receiverSrq then s.receivers[r].cq != [] else s.receivers[r].mem[b].kind != EMPTY
  }

  lemma UnreadReached(c: Config, s: State, a: History, r: nat, b: nat)
    requires WellFormed(c) && Inv(c, s, a) && r < c.receivers && b < BufferLength(c)
    requires Unread(c, s.receivers[r], b) && s.receivers[r].pc.Poll?
    ensures Reaches(c, s, r, b)
  {
    assert ReceiverShape(c, s.receivers[r]);
    hide ReceiverAll, RequestWireOk, ResponseWireOk, DispatcherOk, DispatcherCounts, WorkersOk, PhaseOk;
  }

  /** A spinning worker's request is with the dispatcher or unread at a receiver. */
  lemma SpinningFound(c: Config, s: State, a: History, w: nat)
    requires WellFormed(c) && Inv(c, s, a) && AllPolling(c, s) && w < c.workers && s.workers[w].Spin?
    ensures !s.dpc.Halted?
    ensures Wanted(c, s) || exists r, b :: Reaches(c, s, r, b)
  {
    hide ReceiverAll, RequestWireOk, ResponseWireOk, DispatcherOk, DispatcherCounts, ReceiverShape;
    assert !AllFinished(s);
    assert WorkerFlags(c, w, s.workers[w], a.done[w], a.stage[w], s.reqSlots[w], s.transfered[w], s.mailboxes[w], s.dpc);
    OnWire(c, s, a, w);
    match a.stage[w]
    case Landed(_) => LandedWanted(c, s, a, w);
    case Taken(_) => LandedWanted(c, s, a, w);
    case InBuf(r, b) => AtReceiverFound(c, s, a, w); UnreadReached(c, s, a, r, b);
    case Busy(r, _) => AtReceiverFound(c, s, a, w);
    case _ =>
  }

  lemma OnWire(c: Config, s: State, a: History, w: nat)
    requires WellFormed(c) && HistoryShape(c, a) && w < c.workers && RequestWireOk(c, a, s.reqWire)
    requires ResponseWireOk(c, a, s.respWire)
    ensures a.stage[w].ReqWire? ==> s.reqWire != multiset{}
    ensures a.stage[w].RespWire? ==> s.respWire != multiset{}
    ensures forall r :: 0 <= r < c.receivers && a.fin[w][r].FWire? ==> s.reqWire != multiset{}
  {
    assert a.stage[w].ReqWire? ==> ForwardedPacket(c, w, a.done[w]) in s.reqWire;
    assert a.stage[w].RespWire? ==> ReplyPacket(c, w, a.done[w]) in s.respWire;
    assert forall r :: 0 <= r < c.receivers && a.fin[w][r].FWire? ==> FinishPacket(c, w, r) in s.reqWire;
  }

  lemma LandedWanted(c: Config, s: State, a: History, w: nat)
    requires WellFormed(c) && Shape(c, s) && HistoryShape(c, a) && Polling(c, s) && w < c.workers
    requires DispatcherOk(c, a, s.dpc, s.dPosted, s.dCq, s.respSlots) && (a.stage[w].Landed? || a.stage[w].Taken?)
    ensures a.stage[w].Landed? && Wanted(c, s)
  {
    hide ReceiverShape, DispatcherOk, DispatcherPlace, Wanted, AllArrived, AllFinished;
    HistoryPlace(c, s, a, w);
    if a.stage[w].Taken? {
      TakenPending(c, s, a, w);
    } else {
      LandedIn(c, s, a, w);
    }
  }

  lemma HistoryPlace(c: Config, s: State, a: History, w: nat)
    requires WellFormed(c) && Shape(c, s) && HistoryShape(c, a) && w < c.workers && !a.stage[w].Home?
    requires DispatcherOk(c, a, s.dpc, s.dPosted, s.dCq, s.respSlots)
    ensures DispatcherPlace(c, w, a.done[w], a.stage[w], s.dpc, s.dCq, s.respSlots)
  {
    hide DispatcherPlace, SlotOk, DispatcherQueuesOk;
  }

  lemma TakenPending(c: Config, s: State, a: History, w: nat)
    requires WellFormed(c) && Shape(c, s) && HistoryShape(c, a) && w < c.workers && a.stage[w].Taken?
    requires DispatcherPlace(c, w, a.done[w], a.stage[w], s.dpc, s.dCq, s.respSlots)
    ensures Pending(s.dpc) != []
  {
    hide OwnerOf, Reply, ReceiverShape, DispatcherShape;
  }

  lemma LandedIn(c: Config, s: State, a: History, w: nat)
    requires WellFormed(c) && Shape(c, s) && HistoryShape(c, a) && w < c.workers && a.stage[w].Landed?
    requires DispatcherPlace(c, w, a.done[w], a.stage[w], s.dpc, s.dCq, s.respSlots)
    ensures Wanted(c, s)
  {
    hide OwnerOf, Reply, ReceiverShape, DispatcherShape;
  }

  lemma AtReceiverFound(c: Config, s: State, a: History, w: nat)
    requires WellFormed(c) && Inv(c, s, a) && AllPolling(c, s) && w < c.workers
    requires a.stage[w].InBuf? || a.stage[w].Busy?
    ensures a.stage[w].InBuf?
    ensures var r, b := a.stage[w].r, a.stage[w].b;
            r < c.receivers && b < BufferLength(c) && Unread(c, s.receivers[r], b) && s.receivers[r].pc.Poll?
  {
    hide RequestWireOk, ResponseWireOk, DispatcherOk, DispatcherCounts, WorkersOk, PhaseOk, ReceiverOk, Total, OccupySeq,
         HitSeq;
    var r := a.stage[w].r;
    assert ReceiverAll(c, a, r, s.receivers[r]);
    assert ReceiverPlace(c, w, a.done[w], a.stage[w], r, s.receivers[r]);
    StillExpecting(c, a, w, r, s.receivers[r]);
  }

  /** With every worker finished and the dispatcher gone, a receiver not done yet has a finish message to read. */
  lemma FinishFound(c: Config, s: State, a: History, r: nat)
    requires WellFormed(c) && Inv(c, s, a) && AllPolling(c, s) && AllFinished(s)
    requires r < c.receivers && !s.receivers[r].pc.Returned?
    ensures exists b :: Reaches(c, s, r, b)
  {
    hide RequestWireOk, ResponseWireOk, DispatcherOk, DispatcherCounts, PhaseOk, ReceiverOk, OccupySeq, HitSeq, WorkerFlags;
    var rc := s.receivers[r];
    assert ReceiverAll(c, a, r, rc);
    var w := NotCounted(c, a, r, rc);
    assert FinishFlags(c, s.workers[w], a.fin[w]);
    assert FinishPlace(c, w, a.fin[w][r], rc);
    OnWire(c, s, a, w);
    UnreadReached(c, s, a, r, a.fin[w][r].b);
  }

  lemma NotCounted(c: Config, a: History, r: nat, rc: Receiver) returns (w: nat)
    requires WellFormed(c) && HistoryShape(c, a) && r < c.receivers && ReceiverCounts(c, a, r, rc) && !rc.pc.Returned?
    ensures w < c.workers && !a.fin[w][r].FCounted?
  {
    TotalFull(CountedSeq(c, a, r));
    assert exists u :: 0 <= u < c.workers && CountedSeq(c, a, r)[u] != 1;
    w :| 0 <= w < c.workers && CountedSeq(c, a, r)[w] != 1;
  }

  /** Until every thread has ended, some thread is some empty polls of its own away from a step that does something. */
  lemma CanProgress(c: Config, s: State, a: History) returns (steps: seq<Step>)
    requires WellFormed(c) && Inv(c, s, a) && !Ended(c, s)
    ensures Works(c, s, steps) && OneThread(steps)
  {
    hide ReceiverAll, RequestWireOk, ResponseWireOk, DispatcherOk, DispatcherCounts, WorkersOk, ReceiverShape,
         DispatcherShape, Idle, Wanted, Quiet, Reaches;
    if Quiet(c, s) {
      QuietMeansAllPolling(c, s);
      if w :| 0 <= w < c.workers && s.workers[w].Spin? {
        SpinningFound(c, s, a, w);
      } else {
        NoSpinner(c, s, a);
      }
      if r, b :| Reaches(c, s, r, b) {
        steps := FromReached(c, s, r, b);
      } else {
        steps := DriveDispatcher(c, s, false);
      }
    } else {
      steps := Direct(c, s);
    }
  }

  lemma FromReached(c: Config, s: State, r: nat, b: nat) returns (steps: seq<Step>)
    requires WellFormed(c) && Shape(c, s) && Reaches(c, s, r, b)
    ensures Works(c, s, steps) && OneThread(steps)
  {
    steps := DriveReceiver(c, s, r, b);
  }

  lemma Direct(c: Config, s: State) returns (steps: seq<Step>)
    requires WellFormed(c) && Shape(c, s) && !Quiet(c, s)
    ensures Works(c, s, steps) && OneThread(steps)
  {
    hide Enabled, Idle, Shape;
    var step :| Enabled(c, s, step) && !Idle(c, s, step);
    steps := [step];
  }

  /** Nobody spins: the workers have finished, and the dispatcher or a receiver still has to end. */
  lemma NoSpinner(c: Config, s: State, a: History)
    requires WellFormed(c) && Inv(c, s, a) && AllPolling(c, s) && !Ended(c, s)
    requires forall w :: 0 <= w < c.workers ==> !s.workers[w].Spin?
    ensures (!s.dpc.Halted? && Wanted(c, s)) || exists r, b :: Reaches(c, s, r, b)
  {
    hide ReceiverAll, RequestWireOk, ResponseWireOk, DispatcherOk, DispatcherCounts, WorkersOk, ReceiverShape,
         DispatcherShape, Reaches;
    assert AllArrived(s);
    assert AllFinished(s);
    if s.dpc.Halted? {
      var r :| 0 <= r < c.receivers && !s.receivers[r].pc.Returned?;
      FinishFound(c, s, a, r);
    }
  }

  /* ---- every run can be completed ---- */

  /** The steps can be taken one after the other from s and lead to t. */
  ghost predicate Leads(c: Config, s: State, steps: seq<Step>, t: State)
    requires WellFormed(c)
    decreases |steps|
  {
    if steps == [] then s == t
    else Shape(c, s) && Enabled(c, s, steps[0]) && Leads(c, Apply(c, s, steps[0]), steps[1..], t)
  }

  lemma {:induction false} LeadsOn(c: Config, s: State, xs: seq<Step>, t: State, ys: seq<Step>, u: State)
    requires WellFormed(c) && Leads(c, s, xs, t) && Leads(c, t, ys, u)
    ensures Leads(c, s, xs + ys, u)
    decreases |xs|
  {
    hide Apply, Enabled, Shape;
    if xs == [] {
      assert xs + ys == ys;
    } else {
      assert (xs + ys)[1..] == xs[1..] + ys;
      LeadsOn(c, Apply(c, s, xs[0]), xs[1..], t, ys, u);
    }
  }

  /** Running such steps leads to a state with less work left. */
  lemma {:induction false} WorkDone(c: Config, s: State, a: History, steps: seq<Step>) returns (t: State, b: History)
    requires WellFormed(c) && EnoughCredit(c) && Inv(c, s, a) && Works(c, s, steps)
    ensures Inv(c, t, b) && Leads(c, s, steps, t) && Measure(c, t, b) < Measure(c, s, a)
    decreases |steps|
  {
    hide ReceiverAll, RequestWireOk, ResponseWireOk, DispatcherOk, DispatcherCounts, WorkersOk, PhaseOk, Apply, Enabled,
         Measure, Idle, ReceiverShape, DispatcherShape, EnoughCredit, WellFormed;
    var s' := Apply(c, s, steps[0]);
    StepFits(c, s, a, steps[0], s');
    var a' := StepKeeps(c, s, a, steps[0], s');
    StepMeasure(c, s, a, steps[0], s', a');
    if |steps| == 1 {
      t, b := s', a';
      assert steps[1..] == [];
    } else {
      t, b := WorkDone(c, s', a', steps[1..]);
    }
  }

  lemma {:induction false} CanEnd(c: Config, s: State, a: History) returns (steps: seq<Step>, t: State)
    requires WellFormed(c) && EnoughCredit(c) && Inv(c, s, a)
    ensures Shape(c, t) && Leads(c, s, steps, t) && Ended(c, t)
    decreases Measure(c, s, a)
  {
    hide ReceiverAll, RequestWireOk, ResponseWireOk, DispatcherOk, DispatcherCounts, WorkersOk, PhaseOk,
         Measure, Ended, EnoughCredit, WellFormed, ReceiverShape, DispatcherShape;
    MeasureNonNegative(c, s, a);
    if Ended(c, s) {
      steps, t := [], s;
    } else {
      var first := CanProgress(c, s, a);
      var u, b := WorkDone(c, s, a, first);
      var rest: seq<Step>;
      rest, t := CanEnd(c, u, b);
      LeadsOn(c, s, first, u, rest, t);
      steps := first + rest;
    }
  }

  /** The whole run cannot deadlock: before its end, somebody can get on. */
  lemma NoDeadlock(c: Config, tr: seq<State>, steps: seq<Step>, n: nat)
    requires WellFormed(c) && EnoughCredit(c) && IsRun(c, tr, steps) && n <= |steps|
    ensures Shape(c, tr[n])
    ensures !Ended(c, tr[n]) ==> exists more :: Works(c, tr[n], more) && OneThread(more)
    ensures exists more, t :: Leads(c, tr[n], more, t) && Shape(c, t) && Ended(c, t)
  {
    hide ReceiverAll, RequestWireOk, ResponseWireOk, DispatcherOk, DispatcherCounts, WorkersOk, PhaseOk, Ended, IsRun,
         EnoughCredit, WellFormed, ReceiverShape, DispatcherShape;
    RunLength(c, tr, steps);
    var a := RunKeeps(c, tr, steps, n);
    if !Ended(c, tr[n]) {
      var more := CanProgress(c, tr[n], a);
    }
    var more, t := CanEnd(c, tr[n], a);
  }

  /** And the end is the one everybody expects. */
  lemma EndIsComplete(c: Config, tr: seq<State>, steps: seq<Step>, n: nat)
    requires WellFormed(c) && EnoughCredit(c) && IsRun(c, tr, steps) && n <= |steps|
    requires Shape(c, tr[n]) && Ended(c, tr[n])
    ensures tr[n].dispatched == tr[n].received == Total(Reports(tr[n])) == c.workers * c.requests
    ensures tr[n].reqWire == multiset{} && tr[n].respWire == multiset{} && tr[n].errors == {}
  {
    StoppedMeansQuiet(c, tr, steps, n);
    ReportsAddUp(c, tr, steps, n);
    NoErrors(c, tr, steps, n);
    forall p | p in tr[n].reqWire ensures false {
      NoLateMessage(c, tr, steps, n, p);
    }
  }

  lemma NoLateMessage(c: Config, tr: seq<State>, steps: seq<Step>, n: nat, p: RequestPacket)
    requires WellFormed(c) && EnoughCredit(c) && IsRun(c, tr, steps) && n <= |steps|
    requires Shape(c, tr[n]) && Ended(c, tr[n])
    ensures p !in tr[n].reqWire
  {
    hide Inv, IsRun, EnoughCredit, Ended;
    RunLength(c, tr, steps);
    var a := RunKeeps(c, tr, steps, n);
    EndedWire(c, tr[n], a, p);
  }

  lemma EndedWire(c: Config, s: State, a: History, p: RequestPacket)
    requires WellFormed(c) && Shape(c, s) && Inv(c, s, a) && Ended(c, s)
    ensures p !in s.reqWire
  {
    hide ReceiverAll, ResponseWireOk, DispatcherOk, DispatcherCounts, PhaseOk;
    if p in s.reqWire {
      assert RequestPacketOk(c, a, p);
      AllCounted(c, s, a, p.to);
    }
  }
}
