/**
 The dispatcher's run loop in its own form: loops over shared arrays. A turn of it that nobody interferes with is a
 sequence of the protocol's dispatcher steps.
 */
module DispatcherLoop {
  import opened Protocol
  import opened ProtocolInvariant
  import opened ProtocolDispatcherSteps

  /** n dispatcher steps in a row lead from s to t. `stops` says at which of them the completion poll ends. */
  ghost predicate Alone(c: Config, s: State, t: State, stops: seq<bool>)
    requires WellFormed(c)
    decreases |stops|
  {
    if stops == [] then s == t
    else Shape(c, s) && !s.dpc.Halted? && Alone(c, Dispatch(c, s, stops[0]), t, stops[1..])
  }

  lemma {:induction false} AloneThen(c: Config, s: State, t: State, stops: seq<bool>, stop: bool)
    requires WellFormed(c) && Alone(c, s, t, stops) && Shape(c, t) && !t.dpc.Halted?
    ensures Alone(c, s, Dispatch(c, t, stop), stops + [stop])
    decreases |stops|
  {
    hide Dispatch, Shape;
    if stops == [] {
      assert ([] + [stop])[1..] == [];
    } else {
      assert (stops + [stop])[1..] == stops[1..] + [stop];
      AloneThen(c, Dispatch(c, s, stops[0]), t, stops[1..], stop);
    }
  }

  /** Some dispatcher steps lead from s to t, where the invariant holds. */
  ghost predicate Gets(c: Config, s: State, t: State)
    requires WellFormed(c)
  {
    (exists stops :: Alone(c, s, t, stops)) && exists a :: Inv(c, t, a)
  }

  lemma GetsOn(c: Config, s: State, t: State, stop: bool)
    requires WellFormed(c) && Gets(c, s, t) && !t.dpc.Halted?
    ensures Shape(c, t) && Gets(c, s, Dispatch(c, t, stop))
  {
    hide Inv, Shape, Dispatch, Alone;
    var stops :| Alone(c, s, t, stops);
    var a :| Inv(c, t, a);
    InvShape(c, t, a);
    AloneThen(c, s, t, stops, stop);
    var b := DispatcherKeeps(c, t, a, stop);
  }

  lemma InvShape(c: Config, s: State, a: History)
    requires WellFormed(c) && Inv(c, s, a)
    ensures Shape(c, s)
  {
  }

  /** At the steps that follow, the worker found is the owner and its mailbox is empty. */
  lemma HandlingFinds(c: Config, s: State, t: State)
    requires WellFormed(c) && Gets(c, s, t)
    ensures Shape(c, t)
    ensures t.dpc.Handle? && t.dpc.j < |t.dpc.batch| ==>
              var k := t.dpc.batch[t.dpc.j];
              k < c.workers && 0 <= OwnerOf(c, t.respSlots[k], k) < c.workers
              && t.transfered[OwnerOf(c, t.respSlots[k], k)]
              && t.mailboxes[OwnerOf(c, t.respSlots[k], k)] == 0
  {
    var a :| Inv(c, t, a);
    InvShape(c, t, a);
    if t.dpc.Handle? && t.dpc.j < |t.dpc.batch| {
      var b, w := FindOwner(c, t, a);
      MailboxEmpty(c, t, a, w);
    }
  }

  lemma Regroup(all: seq<nat>, front: seq<nat>, back: seq<nat>)
    requires all == front + back && back != []
    ensures all == (front + [back[0]]) + back[1..]
  {
  }

  lemma PollEnds(c: Config, s: State)
    requires WellFormed(c) && Shape(c, s) && s.dpc.PollQueue? && (s.dpc.batch == [] ==> s.dCq == [])
    ensures Dispatch(c, s, true) == s.(dpc := if s.dpc.batch == [] then Top else Handle(s.dpc.batch, 0))
  {
  }

  lemma FlippingFinds(c: Config, s: State, t: State)
    requires WellFormed(c) && Gets(c, s, t) && t.dpc.FlipMailbox?
    ensures Shape(c, t) && t.mailboxes[t.dpc.w] == 0
  {
    hide Inv;
    var a :| Inv(c, t, a);
    FlippingEmpty(c, t, a);
  }

  lemma FlippingEmpty(c: Config, t: State, a: History)
    requires WellFormed(c) && Inv(c, t, a) && t.dpc.FlipMailbox?
    ensures Shape(c, t) && t.mailboxes[t.dpc.w] == 0
  {
    hide ReceiverAll, RequestWireOk, ResponseWireOk, DispatcherCounts, PhaseOk, DispatcherOk;
    var w := t.dpc.w;
    assert WorkerFlags(c, w, t.workers[w], a.done[w], a.stage[w], t.reqSlots[w], t.transfered[w], t.mailboxes[w], t.dpc);
  }

  lemma MailboxEmpty(c: Config, t: State, a: History, w: nat)
    requires WellFormed(c) && Inv(c, t, a) && w < c.workers && a.stage[w].Taken?
    ensures t.mailboxes[w] == 0 && t.transfered[w]
  {
    hide ReceiverAll, RequestWireOk, ResponseWireOk, DispatcherCounts, PhaseOk, DispatcherOk;
    assert WorkerFlags(c, w, t.workers[w], a.done[w], a.stage[w], t.reqSlots[w], t.transfered[w], t.mailboxes[w], t.dpc);
  }

  class BenchmarkDispatcher {
    const c: Config
    const reqBuffer: array<Message>
    const respBuffer: array<Response>
    const received: array<nat>
    const transfered: array<bool>
    var posted: seq<nat>
    var completed: seq<nat>
    var reqDispatched: nat
    var msgReceived: nat
    var wire: multiset<RequestPacket>
    /** Everything the dispatcher does not write: workers, receivers, responses under way, the running flag. */
    ghost var others: State

    ghost predicate Valid()
      reads this
    {
      && WellFormed(c)
      && reqBuffer.Length == respBuffer.Length == received.Length == transfered.Length == c.workers
    }

    /** The protocol state with the dispatcher at this place of its loop. */
    ghost function Now(pc: DispatcherPc): State
      reads this, reqBuffer, respBuffer, received, transfered
    {
      others.(mailboxes := received[..], reqSlots := reqBuffer[..], respSlots := respBuffer[..],
              transfered := transfered[..], dpc := pc, dPosted := posted, dCq := completed,
              dispatched := reqDispatched, received := msgReceived, reqWire := wire)
    }

    constructor (config: Config)
      requires WellFormed(config)
      ensures Valid() && c == config && Now(Top) == Init(config)
    {
      c := config;
      reqBuffer := new Message[config.workers](_ => EMPTY_MESSAGE);
      respBuffer := new Response[config.workers](_ => ZERO_RESPONSE);
      received := new nat[config.workers](_ => 0);
      transfered := new bool[config.workers](_ => false);
      posted := if config.dispatcherSrq then Iota(config.workers) else [];
      completed, reqDispatched, msgReceived, wire := [], 0, 0, multiset{};
      others := Init(config);
    }

    method Transfer(reqId: nat)
      requires Valid() && reqId < c.workers
      modifies this`wire
      ensures wire == old(wire) + multiset{RequestPacket(reqBuffer[reqId].padNode, reqBuffer[reqId].padPtr, reqBuffer[reqId])}
    {
      var req := reqBuffer[reqId];
      wire := wire + multiset{RequestPacket(req.padNode, req.padPtr, req)};
    }

    /** The scan of the worker slots. */
    method ForwardAll(ghost from: State)
      requires Valid() && Gets(c, from, Now(Scan(0)))
      modifies this`wire, this`reqDispatched, transfered
      ensures Valid() && Gets(c, from, Now(Scan(c.workers)))
    {
      hide Gets, Inv, Dispatch;
      for reqId := 0 to c.workers
        invariant Valid() && Gets(c, from, Now(Scan(reqId)))
      {
        ForwardOne(from, reqId);
      }
    }

    /** A published request that has not been forwarded is forwarded and remembered. */
    method ForwardOne(ghost from: State, reqId: nat)
      requires Valid() && reqId < c.workers && Gets(c, from, Now(Scan(reqId)))
      modifies this`wire, this`reqDispatched, transfered
      ensures Valid() && Gets(c, from, Now(Scan(reqId + 1)))
    {
      hide Gets, Inv, ReceiverShape;
      GetsOn(c, from, Now(Scan(reqId)), false);
      if reqBuffer[reqId].kind == EMPTY || transfered[reqId] {
        return;
      }
      ghost var s := Now(Forward(reqId));
      GetsOn(c, from, s, false);
      Transfer(reqId);
      reqDispatched := reqDispatched + 1;
      transfered[reqId] := true;
      assert Now(Scan(reqId + 1)) == Dispatch(c, s, false);
    }

    /** Looks for one response: the first slot whose flag is set. The flag is reset. */
    method PollBuffer(ghost from: State) returns (batch: seq<nat>)
      requires Valid() && !c.dispatcherSrq && Gets(c, from, Now(PollFlag(0)))
      modifies respBuffer
      ensures Valid() && Gets(c, from, Now(if batch == [] then Top else Handle(batch, 0)))
    {
      hide Gets;
      for respId := 0 to c.workers
        invariant Valid() && Gets(c, from, Now(PollFlag(respId)))
        invariant respBuffer[..] == old(respBuffer[..])
      {
        GetsOn(c, from, Now(PollFlag(respId)), false);
        if respBuffer[respId].transferFlag != 1 {
          continue;
        }
        ghost var s := Now(ClearFlag(respId));
        GetsOn(c, from, s, false);
        respBuffer[respId] := respBuffer[respId].(transferFlag := 0);
        assert Now(Handle([respId], 0)) == Dispatch(c, s, false);
        return [respId];
      }
      GetsOn(c, from, Now(PollFlag(c.workers)), false);
      return [];
    }

    /** Takes up to `max` <= 16 completions from the shared receive queue. */
    method PollQueueBatch(ghost from: State, max: nat) returns (batch: seq<nat>)
      requires Valid() && c.dispatcherSrq && 0 < max <= BATCH && Gets(c, from, Now(PollQueue([])))
      modifies this`completed
      ensures Valid() && Gets(c, from, Now(if batch == [] then Top else Handle(batch, 0)))
      ensures old(completed) == batch + completed && |batch| == if max < |old(completed)| then max else |old(completed)|
    {
      hide Gets, Inv, ReceiverShape, Dispatch;
      batch := [];
      while |batch| < max && completed != []
        invariant Valid() && |batch| <= max && Gets(c, from, Now(PollQueue(batch)))
        invariant old(completed) == batch + completed
      {
        Regroup(old(completed), batch, completed);
        batch := TakeCompletion(from, batch);
      }
      EndPoll(from, batch);
    }

    lemma EndPoll(from: State, batch: seq<nat>)
      requires Valid() && Gets(c, from, Now(PollQueue(batch))) && (batch == [] ==> completed == [])
      ensures Gets(c, from, Now(if batch == [] then Top else Handle(batch, 0)))
    {
      hide Gets, Inv, ReceiverShape, Dispatch;
      GetsOn(c, from, Now(PollQueue(batch)), true);
      PollEnds(c, Now(PollQueue(batch)));
    }

    method TakeCompletion(ghost from: State, batch: seq<nat>) returns (more: seq<nat>)
      requires Valid() && completed != [] && |batch| < BATCH && Gets(c, from, Now(PollQueue(batch)))
      modifies this`completed
      ensures Valid() && Gets(c, from, Now(PollQueue(more)))
      ensures more == batch + [old(completed)[0]] && completed == old(completed)[1..]
    {
      hide Gets, Inv, ReceiverShape;
      ghost var s := Now(PollQueue(batch));
      GetsOn(c, from, s, false);
      more := batch + [completed[0]];
      completed := completed[1..];
      assert Now(PollQueue(more)) == Dispatch(c, s, false);
    }

    /** Hands every response of a batch to its worker: slot, mailbox, then the buffer. */
    method HandleAll(ghost from: State, batch: seq<nat>)
      requires Valid() && Gets(c, from, Now(Handle(batch, 0)))
      modifies this`posted, this`msgReceived, reqBuffer, received, transfered
      ensures Valid() && Gets(c, from, Now(Top))
    {
      hide Gets;
      for i := 0 to |batch|
        invariant Valid() && Gets(c, from, Now(Handle(batch, i)))
      {
        HandleOne(from, batch, i);
      }
      GetsOn(c, from, Now(Handle(batch, |batch|)), false);
    }

    method HandleOne(ghost from: State, batch: seq<nat>, i: nat)
      requires Valid() && i < |batch| && Gets(c, from, Now(Handle(batch, i)))
      modifies this`posted, this`msgReceived, reqBuffer, received, transfered
      ensures Valid() && Gets(c, from, Now(Handle(batch, i + 1)))
    {
      hide Gets;
      var workerId := FindWorker(from, batch, i);
      EmptyOne(from, batch, i, workerId);
      FlipOne(from, batch, i, workerId);
      if c.dispatcherSrq {
        Finalize(from, batch, i, workerId);
      }
    }

    /** The worker a response belongs to; it is no longer waited for. */
    method FindWorker(ghost from: State, batch: seq<nat>, i: nat) returns (workerId: nat)
      requires Valid() && i < |batch| && Gets(c, from, Now(Handle(batch, i)))
      modifies this`msgReceived, transfered
      ensures Valid() && workerId < c.workers && Gets(c, from, Now(EmptySlot(batch, i, workerId)))
    {
      hide Gets, Inv, ReceiverShape;
      ghost var s := Now(Handle(batch, i));
      HandlingFinds(c, from, s);
      GetsOn(c, from, s, false);
      var slot := batch[i];
      workerId := OwnerOf(c, respBuffer[slot], slot);
      msgReceived := msgReceived + 1;
      transfered[workerId] := false;
      hide OwnerOf;
      assert Now(EmptySlot(batch, i, workerId)) == Dispatch(c, s, false);
    }

    method EmptyOne(ghost from: State, batch: seq<nat>, i: nat, workerId: nat)
      requires Valid() && workerId < c.workers && Gets(c, from, Now(EmptySlot(batch, i, workerId)))
      modifies reqBuffer
      ensures Valid() && Gets(c, from, Now(FlipMailbox(batch, i, workerId)))
    {
      hide Gets, Inv, ReceiverShape;
      ghost var s := Now(EmptySlot(batch, i, workerId));
      GetsOn(c, from, s, false);
      reqBuffer[workerId] := reqBuffer[workerId].(kind := EMPTY);
      assert Now(FlipMailbox(batch, i, workerId)) == Dispatch(c, s, false);
    }

    method CompareExchange(workerId: nat, expected: nat, desired: nat) returns (ok: bool)
      requires Valid() && workerId < c.workers
      modifies received
      ensures ok == (old(received[workerId]) == expected)
      ensures received[..] == if ok then old(received[..])[workerId := desired] else old(received[..])
    {
      ok := received[workerId] == expected;
      if ok {
        received[workerId] := desired;
      }
    }

    /** The exchange succeeds at the first try: the loop around it in the code is never entered. */
    method FlipOne(ghost from: State, batch: seq<nat>, i: nat, workerId: nat)
      requires Valid() && workerId < c.workers && Gets(c, from, Now(FlipMailbox(batch, i, workerId)))
      modifies received
      ensures Valid()
      ensures Gets(c, from, Now(if c.dispatcherSrq then Repost(batch, i, workerId) else Handle(batch, i + 1)))
    {
      hide Gets, Inv, ReceiverShape;
      ghost var s := Now(FlipMailbox(batch, i, workerId));
      FlippingFinds(c, from, s);
      GetsOn(c, from, s, false);
      var ok := CompareExchange(workerId, 0, 1);
      assert ok;
      assert Now(if c.dispatcherSrq then Repost(batch, i, workerId) else Handle(batch, i + 1)) == Dispatch(c, s, false);
    }

    /** The response buffer goes back to the shared receive queue. */
    method Finalize(ghost from: State, batch: seq<nat>, i: nat, workerId: nat)
      requires Valid() && i < |batch| && Gets(c, from, Now(Repost(batch, i, workerId)))
      modifies this`posted
      ensures Valid() && Gets(c, from, Now(Handle(batch, i + 1)))
    {
      hide Gets, Inv, ReceiverShape;
      ghost var s := Now(Repost(batch, i, workerId));
      GetsOn(c, from, s, false);
      posted := posted + [batch[i]];
      assert Now(Handle(batch, i + 1)) == Dispatch(c, s, false);
    }

    lemma StartScan()
      requires Valid() && others.running && exists a :: Inv(c, Now(Top), a)
      ensures Gets(c, Now(Scan(0)), Now(Scan(0)))
    {
      hide Inv, ReceiverShape;
      var from, s := Now(Top), Now(Scan(0));
      assert Alone(c, from, from, []);
      assert Gets(c, from, from);
      GetsOn(c, from, from, false);
      assert s == Dispatch(c, from, false);
      assert Alone(c, s, s, []);
    }

    lemma StartPoll(from: State)
      requires Valid() && Gets(c, from, Now(Scan(c.workers)))
      ensures Gets(c, from, Now(if c.dispatcherSrq then PollQueue([]) else PollFlag(0)))
    {
      hide Gets, Inv, ReceiverShape;
      ghost var s := Now(Scan(c.workers));
      GetsOn(c, from, s, false);
      assert Now(if c.dispatcherSrq then PollQueue([]) else PollFlag(0)) == Dispatch(c, s, false);
    }

    /** One turn of the run loop: the scan, one poll, and all responses it found. */
    method Turn(max: nat)
      requires Valid() && others.running && 0 < max <= BATCH && exists a :: Inv(c, Now(Top), a)
      modifies this`posted, this`completed, this`reqDispatched, this`msgReceived, this`wire
      modifies reqBuffer, respBuffer, received, transfered
      ensures Valid() && Gets(c, old(Now(Scan(0))), Now(Top))
    {
      hide Inv, Dispatch;
      ghost var from := Now(Scan(0));
      StartScan();
      ForwardAll(from);
      StartPoll(from);
      var batch: seq<nat>;
      if c.dispatcherSrq {
        batch := PollQueueBatch(from, max);
      } else {
        batch := PollBuffer(from);
      }
      if batch != [] {
        HandleAll(from, batch);
      }
    }
  }
}
