/** A worker's loops in their own form, as sequences of the protocol's worker steps. */
module SenderLoop {
  import opened Partition
  import opened Protocol
  import opened ProtocolFrames
  import opened ProtocolInvariant
  import opened ProtocolSafety

  /** n steps of worker w in a row. */
  ghost predicate Alone(c: Config, s: State, w: nat, t: State, n: nat)
    requires WellFormed(c)
    decreases n
  {
    if n == 0 then s == t
    else w < c.workers && Shape(c, s) && Enabled(c, s, WorkerStep(w)) && Alone(c, Work(c, s, w), w, t, n - 1)
  }

  lemma {:induction false} AloneThen(c: Config, s: State, w: nat, t: State, n: nat)
    requires WellFormed(c) && Alone(c, s, w, t, n) && w < c.workers && Shape(c, t) && Enabled(c, t, WorkerStep(w))
    ensures Alone(c, s, w, Work(c, t, w), n + 1)
    decreases n
  {
    hide Work, Shape, Enabled;
    if n > 0 {
      AloneThen(c, Work(c, s, w), w, t, n - 1);
    }
  }

  lemma InitShape(c: Config)
    requires WellFormed(c)
    ensures Shape(c, Init(c))
  {
    hide ReceiverAll, WorkersOk, RequestWireOk, ResponseWireOk, DispatcherOk, DispatcherCounts, PhaseOk;
    InitOk(c);
  }

  class BenchmarkSender {
    const c: Config
    const w: nat
    var expMsg: Message
    var mailbox: nat
    var wire: multiset<RequestPacket>
    /** What the worker does not write. */
    ghost var others: State

    ghost predicate Valid()
      reads this
    {
      WellFormed(c) && w < c.workers && Shape(c, others)
    }

    ghost function Now(pc: WorkerPc): State
      requires Valid()
      reads this
    {
      others.(workers := others.workers[w := pc], reqSlots := others.reqSlots[w := expMsg],
              mailboxes := others.mailboxes[w := mailbox], reqWire := wire)
    }

    constructor (config: Config, number: nat)
      requires WellFormed(config) && number < config.workers
      ensures Valid() && c == config && w == number && Now(Fill(0)) == Init(config)
    {
      InitShape(config);
      c, w := config, number;
      expMsg, mailbox, wire, others := EMPTY_MESSAGE, 0, multiset{}, Init(config);
    }

    /** Fills the shared slot and sets its type last. */
    method IssueRequest(i: nat)
      requires Valid() && i < c.requests
      modifies this`expMsg
      ensures Valid() && expMsg == Request(c, w, i)
      ensures expMsg.msgId == i && expMsg.kind == ExpMsg && expMsg.destinationNodeID == c.dispatcherId
      ensures expMsg.padNode == c.rand[w][i] % c.receivers
      ensures var n := BufferLength(c);
              SliceFrom(c.prepared, n, c.nodeIds[w]) <= expMsg.id < SliceTo(c.prepared, n, c.nodeIds[w])
      ensures SlotIndex(c.reqBases[expMsg.padNode], MESSAGE_SIZE, expMsg.padPtr) == c.nodeIds[w]
      ensures SlotIndex(c.respBase, c.respSize, expMsg.rdmaPtr) == w
      ensures Alone(c, old(Now(Fill(i))), w, Now(Spin(i)), 2)
    {
      ghost var s := Now(Fill(i));
      var randNumber := c.rand[w][i];
      var picked := randNumber % c.receivers;
      var n := BufferLength(c);
      SliceUsable(c.prepared, n, c.nodeIds[w]);
      var from, to := SliceFrom(c.prepared, n, c.nodeIds[w]), SliceTo(c.prepared, n, c.nodeIds[w]);
      expMsg := expMsg.(msgId := i, id := randNumber % (to - from) + from);
      expMsg := expMsg.(rdmaPtr := SlotAddress(c.respBase, c.respSize, w), destinationNodeID := c.dispatcherId);
      expMsg := expMsg.(padNode := picked, padPtr := SlotAddress(c.reqBases[picked], MESSAGE_SIZE, c.nodeIds[w]));
      expMsg := expMsg.(origin := w);
      assert expMsg == Request(c, w, i).(kind := expMsg.kind);
      ghost var s1 := Now(Publish(i));
      assert s1 == Work(c, s, w);
      expMsg := expMsg.(kind := ExpMsg);
      assert Now(Spin(i)) == Work(c, s1, w);
      hide Work;
      assert Alone(c, s1, w, Now(Spin(i)), 1);
      ResponseIdInSlice(c, w, i);
      AddressRoundTrip(c.reqBases[picked], MESSAGE_SIZE, c.nodeIds[w]);
      AddressRoundTrip(c.respBase, c.respSize, w);
    }

    /** One try to take the mail. */
    method TryCollect(i: nat) returns (ok: bool)
      requires Valid()
      modifies this`mailbox
      ensures Valid() && ok == (old(mailbox) == 1)
      ensures Now(if ok then Fill(i + 1) else Spin(i)) == Work(c, old(Now(Spin(i))), w)
    {
      ok := mailbox == 1;
      if ok {
        mailbox := 0;
      }
    }

    /** A finish message to every receiver. */
    method FinalizePhase()
      requires Valid()
      modifies this`wire
      ensures Valid() && Alone(c, old(Now(Finalize(0))), w, Now(Finished), c.receivers + 1)
    {
      ghost var from := Now(Finalize(0));
      for k := 0 to c.receivers
        invariant Valid() && Alone(c, from, w, Now(Finalize(k)), k)
      {
        SendFinish(k, from);
      }
      AloneThen(c, from, w, Now(Finalize(c.receivers)), c.receivers);
      assert Now(Finished) == Work(c, Now(Finalize(c.receivers)), w);
    }

    method SendFinish(k: nat, ghost from: State)
      requires Valid() && k < c.receivers && Alone(c, from, w, Now(Finalize(k)), k)
      modifies this`wire
      ensures Valid() && Alone(c, from, w, Now(Finalize(k + 1)), k + 1)
    {
      ghost var s := Now(Finalize(k));
      AloneThen(c, from, w, s, k);
      wire := wire + multiset{FinishPacket(c, w, k)};
      assert Now(Finalize(k + 1)) == Work(c, s, w);
    }
  }
}
