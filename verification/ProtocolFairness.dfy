/**
 Every fair run ends. Empty polls of the other threads take nothing from a thread that can do something, so a run in
 which every thread gets its turns cannot go on polling in vain.
 */
module ProtocolFairness {
  import opened Arithmetic
  import opened Sums
  import opened Partition
  import opened Protocol
  import opened ProtocolInvariant
  import opened ProtocolSafety
  import opened ProtocolMeasure
  import opened ProtocolTheorems
  import opened ProtocolProgress

  /** A dispatcher step is one of the dispatcher's, whatever its poll returns. */
  predicate SameThread(x: Step, y: Step) { x == y || (x.DispatcherStep? && y.DispatcherStep?) }

  /** How many of the steps are turns of the thread of x. */
  function Turns(steps: seq<Step>, x: Step): nat {
    if steps == [] then 0 else Turns(steps[1..], x) + if SameThread(steps[0], x) then 1 else 0
  }

  /** Empty polls only, one after the other. */
  ghost predicate IdleRun(c: Config, s: State, steps: seq<Step>)
    requires WellFormed(c)
    decreases |steps|
  {
    steps == []
    || (Shape(c, s) && Enabled(c, s, steps[0]) && Idle(c, s, steps[0]) && IdleRun(c, Apply(c, s, steps[0]), steps[1..]))
  }

  /** The most turns in vain a thread needs before it does something it can do. */
  function Patience(c: Config): nat
    requires WellFormed(c)
  {
    4 * c.workers + 5 + 2 * BufferLength(c)
  }

  /* ---- what an empty poll changes ---- */

  /** An empty poll changes at most the loop cursor of its own thread. */
  lemma IdleLocal(c: Config, s: State, y: Step)
    requires WellFormed(c) && Shape(c, s) && Enabled(c, s, y) && Idle(c, s, y)
    ensures Shape(c, Apply(c, s, y))
    ensures match y
            case DispatcherStep(_) =>
              Apply(c, s, y) == Dispatch(c, s, false) && Dispatch(c, s, false) == s.(dpc := Dispatch(c, s, false).dpc)
            case ReceiverStep(q) =>
              Apply(c, s, y) == s.(receivers := s.receivers[q := s.receivers[q].(pc := Receive(c, s.receivers[q]).pc)])
            case _ => Apply(c, s, y) == s
  {
    match y
    case DispatcherStep(stop) => IdlePoll(c, s, stop);
    case ReceiverStep(q) => IdleReceive(c, s, q);
    case _ =>
  }

  lemma IdlePoll(c: Config, s: State, stop: bool)
    requires WellFormed(c) && Shape(c, s) && IdleDispatch(c, s)
    ensures Dispatch(c, s, stop) == Dispatch(c, s, false) == s.(dpc := Dispatch(c, s, false).dpc)
    ensures Shape(c, Dispatch(c, s, stop))
  {
    hide ReceiverShape, OwnerOf;
  }

  lemma IdleReceive(c: Config, s: State, q: nat)
    requires WellFormed(c) && Shape(c, s) && q < c.receivers && Idle(c, s, ReceiverStep(q))
    requires Enabled(c, s, ReceiverStep(q))
    ensures Apply(c, s, ReceiverStep(q)) ==
            s.(receivers := s.receivers[q := s.receivers[q].(pc := Receive(c, s.receivers[q]).pc)])
    ensures Shape(c, Apply(c, s, ReceiverStep(q)))
  {
    hide DispatcherShape;
    assert ReceiverShape(c, s.receivers[q]);
    assert Receive(c, s.receivers[q]) == s.receivers[q].(pc := Receive(c, s.receivers[q]).pc);
    assert s.respWire + multiset{} == s.respWire;
  }

  /* ---- a thread that can do something keeps that chance ---- */

  lemma DirectStays(c: Config, s: State, x: Step, y: Step)
    requires WellFormed(c) && Shape(c, s) && Enabled(c, s, x) && !Idle(c, s, x)
    requires Enabled(c, s, y) && Idle(c, s, y)
    ensures !SameThread(y, x)
    ensures Shape(c, Apply(c, s, y)) && Enabled(c, Apply(c, s, y), x) && !Idle(c, Apply(c, s, y), x)
  {
    IdleLocal(c, s, y);
    hide Apply, Dispatch, ReceiverShape, DispatcherShape;
  }

  lemma {:induction false} DirectServed(c: Config, s: State, x: Step, steps: seq<Step>)
    requires WellFormed(c) && Shape(c, s) && Enabled(c, s, x) && !Idle(c, s, x) && IdleRun(c, s, steps)
    ensures Turns(steps, x) == 0
    decreases |steps|
  {
    hide Apply, Enabled, Idle, Shape;
    if steps != [] {
      DirectStays(c, s, x, steps[0]);
      DirectServed(c, Apply(c, s, steps[0]), x, steps[1..]);
    }
  }

  /** Loop moves left to the dispatcher before it finds what is wanted. */
  function Left(c: Config, pc: DispatcherPc, ahead: bool): nat {
    ToTop(c, pc) + if ahead then 0 else 2 * c.workers + 3
  }

  /** The poll of another thread leaves the dispatcher's work and place as they are. */
  lemma DispatcherUndisturbed(c: Config, s: State, y: Step)
    requires WellFormed(c) && Shape(c, s) && Enabled(c, s, y) && Idle(c, s, y) && !y.DispatcherStep?
    ensures var s' := Apply(c, s, y);
            Shape(c, s') && s'.dpc == s.dpc && (Wanted(c, s') <==> Wanted(c, s)) && (Ahead(c, s') <==> Ahead(c, s))
  {
    IdleLocal(c, s, y);
    hide Apply, ReceiverShape, DispatcherShape, Receive, Idle;
  }

  lemma DispatcherTurn(c: Config, s: State, ahead: bool)
    requires WellFormed(c) && Shape(c, s) && IdleDispatch(c, s) && Wanted(c, s) && (ahead ==> Ahead(c, s))
    ensures var s' := Dispatch(c, s, false); var ahead' := ahead || s.dpc.Top?;
            && Shape(c, s') && !s'.dpc.Halted? && Wanted(c, s') && (ahead' ==> Ahead(c, s'))
            && Left(c, s'.dpc, ahead') < Left(c, s.dpc, ahead)
  {
    hide Ahead, ReceiverShape, DispatcherShape, Dispatch, IdleDispatch;
    IdleTurn(c, s);
    if ahead {
      AheadStays(c, s);
    } else if s.dpc.Top? {
      AheadFromTop(c, s);
    }
  }

  lemma {:induction false} DispatcherServed(c: Config, s: State, steps: seq<Step>, ahead: bool)
    requires WellFormed(c) && Shape(c, s) && !s.dpc.Halted? && Wanted(c, s) && (ahead ==> Ahead(c, s))
    requires IdleRun(c, s, steps)
    ensures Turns(steps, DispatcherStep(false)) <= Left(c, s.dpc, ahead)
    decreases |steps|
  {
    hide Ahead, Wanted, Left, Shape, Dispatch, IdleDispatch;
    if steps != [] {
      var s' := Apply(c, s, steps[0]);
      if steps[0].DispatcherStep? {
        IdleLocal(c, s, steps[0]);
        DispatcherTurn(c, s, ahead);
        DispatcherServed(c, s', steps[1..], ahead || s.dpc.Top?);
      } else {
        DispatcherUndisturbed(c, s, steps[0]);
        DispatcherServed(c, s', steps[1..], ahead);
      }
    }
  }

  /** Slots between a BUF receiver's scan and slot b; an SRQ receiver has its message at hand. */
  function Distance(c: Config, rc: Receiver, b: nat): nat
    requires WellFormed(c) && ReceiverShape(c, rc) && rc.pc.Poll? && b < BufferLength(c)
  {
    if c.receiverSrq then 0
    else if rc.pc.pos <= b then b - rc.pc.pos else b + BufferLength(c) - rc.pc.pos
  }

  lemma ReceiverUndisturbed(c: Config, s: State, r: nat, b: nat, y: Step)
    requires WellFormed(c) && Shape(c, s) && Reaches(c, s, r, b) && ReceiverShape(c, s.receivers[r])
    requires Enabled(c, s, y) && Idle(c, s, y)
    ensures var s' := Apply(c, s, y);
            && Shape(c, s') && Reaches(c, s', r, b) && ReceiverShape(c, s'.receivers[r])
            && Distance(c, s'.receivers[r], b) + (if y == ReceiverStep(r) then 1 else 0) <= Distance(c, s.receivers[r], b)
  {
    IdleLocal(c, s, y);
    hide Apply, Dispatch, DispatcherShape;
    assert ReceiverShape(c, Apply(c, s, y).receivers[r]);
  }

  lemma {:induction false} ReceiverServed(c: Config, s: State, r: nat, b: nat, steps: seq<Step>)
    requires WellFormed(c) && Shape(c, s) && Reaches(c, s, r, b) && ReceiverShape(c, s.receivers[r])
    requires IdleRun(c, s, steps)
    ensures Turns(steps, ReceiverStep(r)) <= Distance(c, s.receivers[r], b)
    decreases |steps|
  {
    hide Reaches, Distance, Shape, Idle, Apply;
    if steps != [] {
      ReceiverUndisturbed(c, s, r, b, steps[0]);
      ReceiverServed(c, Apply(c, s, steps[0]), r, b, steps[1..]);
    }
  }

  /* ---- fair runs ---- */

  /** While all threads poll in vain, one that is able to do something is being passed over. */
  lemma SomeonePassedOver(c: Config, s: State, a: History, steps: seq<Step>) returns (x: Step)
    requires WellFormed(c) && Shape(c, s) && Inv(c, s, a) && !Ended(c, s) && IdleRun(c, s, steps)
    ensures Enabled(c, s, x) && Turns(steps, x) <= Patience(c)
  {
    hide ReceiverAll, RequestWireOk, ResponseWireOk, DispatcherOk, DispatcherCounts, WorkersOk, Idle, Wanted, Reaches,
         IdleRun, Patience;
    if y :| Enabled(c, s, y) && !Idle(c, s, y) {
      x := y;
      DirectServed(c, s, x, steps);
    } else {
      QuietMeansAllPolling(c, s);
      if w :| 0 <= w < c.workers && s.workers[w].Spin? {
        SpinningFound(c, s, a, w);
      } else {
        NoSpinner(c, s, a);
      }
      if r, b :| Reaches(c, s, r, b) {
        x := ReceiverStep(r);
        ReceiverPassedOver(c, s, r, b, steps);
      } else {
        x := DispatcherStep(false);
        DispatcherPassedOver(c, s, steps);
      }
    }
  }

  lemma ReceiverPassedOver(c: Config, s: State, r: nat, b: nat, steps: seq<Step>)
    requires WellFormed(c) && Shape(c, s) && Reaches(c, s, r, b) && IdleRun(c, s, steps)
    ensures Enabled(c, s, ReceiverStep(r)) && Turns(steps, ReceiverStep(r)) <= Patience(c)
  {
    hide IdleRun, DispatcherShape;
    assert ReceiverShape(c, s.receivers[r]);
    ReceiverServed(c, s, r, b, steps);
  }

  lemma DispatcherPassedOver(c: Config, s: State, steps: seq<Step>)
    requires WellFormed(c) && Shape(c, s) && !s.dpc.Halted? && Wanted(c, s) && IdleRun(c, s, steps)
    ensures Enabled(c, s, DispatcherStep(false)) && Turns(steps, DispatcherStep(false)) <= Patience(c)
  {
    hide IdleRun, Wanted, ReceiverShape;
    DispatcherServed(c, s, steps, false);
  }

  /** In every window of K steps something happens, or every thread that can take a step gets enough turns. */
  ghost predicate Fair(c: Config, tr: seq<State>, steps: seq<Step>, window: nat)
    requires WellFormed(c) && IsRun(c, tr, steps)
  {
    forall i: nat :: i + window <= |steps| ==> FairWindow(c, tr, steps, i, window)
  }

  ghost predicate FairWindow(c: Config, tr: seq<State>, steps: seq<Step>, i: nat, window: nat)
    requires WellFormed(c) && IsRun(c, tr, steps) && i + window <= |steps|
  {
    || BusySteps(c, tr, steps, i + window) > BusySteps(c, tr, steps, i)
    || forall x :: Shape(c, tr[i]) && Enabled(c, tr[i], x) ==> Turns(steps[i..i + window], x) > Patience(c)
  }

  lemma {:induction false} BusyGrows(c: Config, tr: seq<State>, steps: seq<Step>, i: nat, j: nat)
    requires WellFormed(c) && IsRun(c, tr, steps) && i <= j <= |steps|
    ensures BusySteps(c, tr, steps, i) <= BusySteps(c, tr, steps, j)
    decreases j - i
  {
    hide Next, Idle;
    RunLength(c, tr, steps);
    if i < j {
      BusyGrows(c, tr, steps, i, j - 1);
    }
  }

  /** A stretch of a run in which nothing happens is a run of empty polls. */
  lemma {:induction false} QuietStretch(c: Config, tr: seq<State>, steps: seq<Step>, i: nat, j: nat)
    requires WellFormed(c) && IsRun(c, tr, steps) && i <= j <= |steps|
    requires BusySteps(c, tr, steps, j) == BusySteps(c, tr, steps, i)
    ensures IdleRun(c, tr[i], steps[i..j])
    decreases j - i
  {
    hide IsRun, Next, Idle, BusySteps;
    RunLength(c, tr, steps);
    if i < j {
      BusyGrows(c, tr, steps, i, i + 1);
      BusyGrows(c, tr, steps, i + 1, j);
      OneQuiet(c, tr, steps, i);
      QuietStretch(c, tr, steps, i + 1, j);
      assert steps[i..j][1..] == steps[i + 1..j];
    }
  }

  lemma OneQuiet(c: Config, tr: seq<State>, steps: seq<Step>, i: nat)
    requires WellFormed(c) && IsRun(c, tr, steps) && i < |steps|
    requires BusySteps(c, tr, steps, i + 1) == BusySteps(c, tr, steps, i)
    ensures i + 1 < |tr| && Shape(c, tr[i]) && Enabled(c, tr[i], steps[i]) && Idle(c, tr[i], steps[i])
    ensures tr[i + 1] == Apply(c, tr[i], steps[i])
  {
    hide Idle, Enabled, Shape, Apply;
    assert Next(c, tr[i], steps[i], tr[i + 1]);
  }

  /** When every thread has ended nothing can take a step. */
  lemma EndedIsFinal(c: Config, s: State, a: History, x: Step)
    requires WellFormed(c) && Shape(c, s) && Inv(c, s, a) && Ended(c, s)
    ensures !Enabled(c, s, x)
  {
    hide ReceiverAll, RequestWireOk, ResponseWireOk, DispatcherOk, DispatcherCounts, WorkersOk, ReceiverShape;
    match x
    case DeliverRequest(p) => EndedWire(c, s, a, p);
    case DeliverResponse(p) => EndedResponses(c, s, a, p);
    case _ =>
  }

  lemma EndedResponses(c: Config, s: State, a: History, p: ResponsePacket)
    requires WellFormed(c) && Shape(c, s) && Inv(c, s, a) && Ended(c, s)
    ensures p !in s.respWire
  {
    hide ReceiverAll, RequestWireOk, DispatcherOk, DispatcherCounts, WorkersOk;
    if p in s.respWire {
      assert ResponsePacketOk(c, a, p);
      FinishedHome(c, s, a, p.origin);
    }
  }

  lemma FinishedHome(c: Config, s: State, a: History, w: nat)
    requires WellFormed(c) && Shape(c, s) && HistoryShape(c, a) && WorkersOk(c, s, a)
    requires w < c.workers && s.workers[w].Finished?
    ensures a.stage[w].Home?
  {
    assert WorkerFlags(c, w, s.workers[w], a.done[w], a.stage[w], s.reqSlots[w], s.transfered[w], s.mailboxes[w], s.dpc);
  }

  /** In every fair window something happens. */
  lemma FairWindowWorks(c: Config, tr: seq<State>, steps: seq<Step>, i: nat, window: nat)
    requires WellFormed(c) && EnoughCredit(c) && IsRun(c, tr, steps) && window > 0 && i + window <= |steps|
    requires FairWindow(c, tr, steps, i, window)
    ensures BusySteps(c, tr, steps, i + window) >= BusySteps(c, tr, steps, i) + 1
  {
    hide Inv, IsRun, Next, Idle, BusySteps, Ended, Enabled, EnoughCredit, Shape, Turns;
    RunLength(c, tr, steps);
    BusyGrows(c, tr, steps, i, i + window);
    if BusySteps(c, tr, steps, i + window) == BusySteps(c, tr, steps, i) {
      BusyGrows(c, tr, steps, i, i + 1);
      BusyGrows(c, tr, steps, i + 1, i + window);
      OneQuiet(c, tr, steps, i);
      QuietStretch(c, tr, steps, i, i + window);
      var a := RunKeeps(c, tr, steps, i);
      if Ended(c, tr[i]) {
        EndedIsFinal(c, tr[i], a, steps[i]);
      } else {
        var x := SomeonePassedOver(c, tr[i], a, steps[i..i + window]);
      }
    }
  }

  lemma {:induction false} WindowsAddUp(c: Config, tr: seq<State>, steps: seq<Step>, window: nat, m: nat)
    requires WellFormed(c) && EnoughCredit(c) && IsRun(c, tr, steps) && window > 0 && Fair(c, tr, steps, window)
    requires m * window <= |steps|
    ensures BusySteps(c, tr, steps, m * window) >= m
  {
    hide IsRun, BusySteps, EnoughCredit, FairWindow;
    if m > 0 {
      ProductStep(m - 1, window);
      assert (m - 1) * window + window == m * window;
      WindowsAddUp(c, tr, steps, window, m - 1);
      assert FairWindow(c, tr, steps, (m - 1) * window, window);
      FairWindowWorks(c, tr, steps, (m - 1) * window, window);
    }
  }

  /** Every fair run ends: it has fewer windows than there are steps to be done. */
  lemma FairRunsEnd(c: Config, tr: seq<State>, steps: seq<Step>, window: nat)
    requires WellFormed(c) && EnoughCredit(c) && IsRun(c, tr, steps) && window > 0 && Fair(c, tr, steps, window)
    ensures |steps| < (c.workers * (200 * c.requests + 50 * c.receivers + 30) + 3) * window
  {
    hide IsRun, BusySteps, EnoughCredit, Fair;
    var bound := c.workers * (200 * c.requests + 50 * c.receivers + 30) + 2;
    if |steps| >= (bound + 1) * window {
      WindowsAddUp(c, tr, steps, window, bound + 1);
      BusyStepsBounded(c, tr, steps, (bound + 1) * window);
    }
  }

  /** A run that cannot be continued is one in which every thread has ended, and the other way round. */
  lemma StuckIffEnded(c: Config, tr: seq<State>, steps: seq<Step>, n: nat)
    requires WellFormed(c) && EnoughCredit(c) && IsRun(c, tr, steps) && n <= |steps|
    ensures Shape(c, tr[n])
    ensures (forall x :: !Enabled(c, tr[n], x)) <==> Ended(c, tr[n])
  {
    hide ReceiverAll, RequestWireOk, ResponseWireOk, DispatcherOk, DispatcherCounts, WorkersOk, PhaseOk, Ended, IsRun,
         EnoughCredit, WellFormed, ReceiverShape, DispatcherShape, Enabled;
    RunLength(c, tr, steps);
    var a := RunKeeps(c, tr, steps, n);
    if Ended(c, tr[n]) {
      forall x ensures !Enabled(c, tr[n], x) {
        EndedIsFinal(c, tr[n], a, x);
      }
    } else {
      var more := CanProgress(c, tr[n], a);
      assert Enabled(c, tr[n], more[0]);
    }
  }
}
