/**
 The receiver's loop in its own form. One turn of it is a sequence of the protocol's receiver steps and posts what
 these post.
 */
module ReceiverLoop {
  import opened Protocol

  lemma ShapeStays(c: Config, rc: Receiver)
    requires WellFormed(c) && ReceiverShape(c, rc)
    ensures ReceiverShape(c, Receive(c, rc))
  {
    assert rc.cq != [] ==> rc.cq[0] in rc.cq;
  }

  /** n steps in a row, and what they post. */
  function Steps(c: Config, rc: Receiver, n: nat): (t: Receiver)
    requires WellFormed(c) && ReceiverShape(c, rc)
    ensures ReceiverShape(c, t)
  {
    if n == 0 then rc
    else
      ShapeStays(c, Steps(c, rc, n - 1));
      Receive(c, Steps(c, rc, n - 1))
  }

  function PostsOf(c: Config, rc: Receiver, r: nat, n: nat): multiset<ResponsePacket>
    requires WellFormed(c) && ReceiverShape(c, rc)
  {
    if n == 0 then multiset{} else PostsOf(c, rc, r, n - 1) + Posts(Steps(c, rc, n - 1), r)
  }

  /** Some steps lead from rc to t and post exactly these packets. */
  ghost predicate Gets(c: Config, rc: Receiver, r: nat, t: Receiver, out: multiset<ResponsePacket>)
    requires WellFormed(c) && ReceiverShape(c, rc)
  {
    exists n: nat :: t == Steps(c, rc, n) && out == PostsOf(c, rc, r, n)
  }

  /** The same, with at least one step. */
  ghost predicate Advances(c: Config, rc: Receiver, r: nat, t: Receiver, out: multiset<ResponsePacket>)
    requires WellFormed(c) && ReceiverShape(c, rc)
  {
    exists n: nat :: n > 0 && t == Steps(c, rc, n) && out == PostsOf(c, rc, r, n)
  }

  lemma GetsNone(c: Config, rc: Receiver, r: nat)
    requires WellFormed(c) && ReceiverShape(c, rc)
    ensures Gets(c, rc, r, rc, multiset{})
  {
    assert rc == Steps(c, rc, 0) && multiset{} == PostsOf(c, rc, r, 0);
  }

  lemma GetsOn(c: Config, rc: Receiver, r: nat, t: Receiver, out: multiset<ResponsePacket>)
    requires WellFormed(c) && ReceiverShape(c, rc) && Gets(c, rc, r, t, out)
    ensures ReceiverShape(c, t) && ReceiverShape(c, Receive(c, t)) && Gets(c, rc, r, Receive(c, t), out + Posts(t, r))
    ensures !t.pc.Transfer? ==> Gets(c, rc, r, Receive(c, t), out) && Advances(c, rc, r, Receive(c, t), out)
    ensures Advances(c, rc, r, Receive(c, t), out + Posts(t, r))
  {
    hide Receive;
    var n: nat :| t == Steps(c, rc, n) && out == PostsOf(c, rc, r, n);
    ShapeStays(c, t);
    assert Receive(c, t) == Steps(c, rc, n + 1);
    assert out + Posts(t, r) == PostsOf(c, rc, r, n + 1);
    assert out + multiset{} == out;
  }

  class BenchmarkReceiver {
    const c: Config
    const r: nat
    const reqBuffer: array<Message>
    var respBuffer: map<nat, Response>
    var posted: seq<nat>
    var completed: seq<nat>
    var clientsFinished: nat
    var handledRequests: nat
    var sent: multiset<ResponsePacket>

    /** The protocol's receiver at this place of its loop. */
    ghost function Now(pc: ReceiverPc): Receiver
      reads this, reqBuffer
    {
      Receiver(reqBuffer[..], posted, completed, respBuffer, pc, clientsFinished, handledRequests)
    }

    ghost predicate Valid()
      reads this, reqBuffer
    {
      WellFormed(c) && ReceiverShape(c, Now(Poll(0)))
    }

    constructor (config: Config, number: nat)
      requires WellFormed(config)
      ensures Valid() && c == config && Now(Poll(0)) == InitReceiver(config) && sent == multiset{}
    {
      c, r := config, number;
      var n := BufferLength(config);
      reqBuffer := new Message[n](_ => EMPTY_MESSAGE);
      respBuffer, completed, clientsFinished, handledRequests, sent := map[], [], 0, 0, multiset{};
      posted := if config.receiverSrq then Iota(n) else [];
    }

    /** One look for a message: a BUF receiver scans all slots, an SRQ receiver polls its completions once. */
    method PollOnce() returns (found: bool, memIdx: nat)
      requires Valid()
      modifies this`completed
      ensures Valid() && memIdx < reqBuffer.Length
      ensures found ==> Gets(c, old(Now(Poll(0))), r, Now(Test(memIdx)), multiset{})
      ensures !found ==> completed == old(completed) && Advances(c, old(Now(Poll(0))), r, Now(Poll(0)), multiset{})
      ensures found <==> if c.receiverSrq then old(completed) != []
                         else exists b :: 0 <= b < reqBuffer.Length && reqBuffer[b].kind != EMPTY
    {
      if c.receiverSrq {
        found, memIdx := PollCompletion();
      } else {
        found, memIdx := ScanSlots();
      }
    }

    method PollCompletion() returns (found: bool, memIdx: nat)
      requires Valid() && c.receiverSrq
      modifies this`completed
      ensures Valid() && memIdx < reqBuffer.Length && (found <==> old(completed) != [])
      ensures found ==> Gets(c, old(Now(Poll(0))), r, Now(Test(memIdx)), multiset{})
      ensures !found ==> completed == old(completed) && Advances(c, old(Now(Poll(0))), r, Now(Poll(0)), multiset{})
    {
      hide Gets, Advances;
      ghost var from := Now(Poll(0));
      GetsNone(c, from, r);
      GetsOn(c, from, r, from, multiset{});
      found, memIdx := completed != [], 0;
      if found {
        assert completed[0] in completed;
        memIdx := completed[0];
        completed := completed[1..];
      }
    }

    method ScanSlots() returns (found: bool, memIdx: nat)
      requires Valid() && !c.receiverSrq
      ensures memIdx < reqBuffer.Length
      ensures found ==> reqBuffer[memIdx].kind != EMPTY && forall b :: 0 <= b < memIdx ==> reqBuffer[b].kind == EMPTY
      ensures !found ==> forall b :: 0 <= b < reqBuffer.Length ==> reqBuffer[b].kind == EMPTY
      ensures found ==> Gets(c, Now(Poll(0)), r, Now(Test(memIdx)), multiset{})
      ensures !found ==> Advances(c, Now(Poll(0)), r, Now(Poll(0)), multiset{})
    {
      hide Gets, Advances;
      ghost var from := Now(Poll(0));
      GetsNone(c, from, r);
      found, memIdx := false, 0;
      for pos := 0 to reqBuffer.Length
        invariant Gets(c, from, r, Now(Poll(if pos < reqBuffer.Length then pos else 0)), multiset{})
        invariant pos > 0 ==> Advances(c, from, r, Now(Poll(if pos < reqBuffer.Length then pos else 0)), multiset{})
        invariant forall b :: 0 <= b < pos ==> reqBuffer[b].kind == EMPTY
      {
        GetsOn(c, from, r, Now(Poll(pos)), multiset{});
        if reqBuffer[pos].kind != EMPTY {
          return true, pos;
        }
      }
    }

    /** Gives the buffer back: empties the slot (BUF) or posts it again (SRQ). */
    method Finalize(id: nat)
      requires Valid() && id < reqBuffer.Length
      modifies this`posted, reqBuffer
      ensures Valid()
      ensures posted == if c.receiverSrq then old(posted) + [id] else old(posted)
      ensures reqBuffer[..] == if c.receiverSrq then old(reqBuffer[..])
                               else old(reqBuffer[..])[id := old(reqBuffer[id]).(kind := EMPTY)]
    {
      if c.receiverSrq {
        posted := posted + [id];
      } else {
        reqBuffer[id] := reqBuffer[id].(kind := EMPTY);
      }
    }

    method Transfer(reqId: nat)
      requires Valid() && reqId < reqBuffer.Length
      modifies this`sent
      ensures sent == old(sent) + Posts(Now(ReceiverPc.Transfer(reqId)), r)
    {
      var req := reqBuffer[reqId];
      sent := sent + multiset{ResponsePacket(r, req.id, req.destinationNodeID, req.rdmaPtr, req.origin)};
    }

    /** Answers a request: response, then buffer and transfer in the order the way of receiving asks for. */
    method Answer(memIdx: nat, ghost from: Receiver)
      requires Valid() && memIdx < reqBuffer.Length && ReceiverShape(c, from)
      requires Gets(c, from, r, Now(Build(memIdx)), multiset{})
      modifies this`respBuffer, this`posted, this`sent, this`handledRequests, reqBuffer
      ensures Valid() && Advances(c, from, r, Now(Poll(0)), sent - old(sent)) && old(sent) <= sent
    {
      hide Gets, Advances;
      BuildResponse(memIdx, from);
      ghost var transfer := Now(ReceiverPc.Transfer(memIdx));
      GetsOn(c, from, r, transfer, multiset{});
      Transfer(memIdx);
      assert sent - old(sent) == multiset{} + Posts(transfer, r);
      if c.receiverSrq {
        GetsOn(c, from, r, Now(Refill(memIdx)), sent - old(sent));
        Finalize(memIdx);
      }
      handledRequests := handledRequests + 1;
    }

    method BuildResponse(memIdx: nat, ghost from: Receiver)
      requires Valid() && memIdx < reqBuffer.Length && ReceiverShape(c, from)
      requires Gets(c, from, r, Now(Build(memIdx)), multiset{})
      modifies this`respBuffer, this`posted, reqBuffer
      ensures Valid() && Gets(c, from, r, Now(ReceiverPc.Transfer(memIdx)), multiset{})
    {
      hide Gets, Advances;
      GetsOn(c, from, r, Now(Build(memIdx)), multiset{});
      var req := reqBuffer[memIdx];
      respBuffer := respBuffer[req.id := Response(req.rdmaPtr, req.id, 1)];
      if !c.receiverSrq {
        GetsOn(c, from, r, Now(Release(memIdx)), multiset{});
        Finalize(memIdx);
      }
    }

    /** One turn of the loop; done says that the last finish message has been counted and the loop is left. */
    method Turn() returns (done: bool)
      requires Valid()
      modifies this`respBuffer, this`posted, this`completed, this`sent, this`handledRequests, this`clientsFinished, reqBuffer
      ensures Valid() && old(sent) <= sent
      ensures Advances(c, old(Now(Poll(0))), r, Now(if done then Returned else Poll(0)), sent - old(sent))
      ensures done ==> clientsFinished == c.workers
    {
      hide Gets, Advances;
      ghost var from := Now(Poll(0));
      var found, memIdx := PollOnce();
      done := false;
      if !found {
        assert sent - old(sent) == multiset{};
        return;
      }
      GetsOn(c, from, r, Now(Test(memIdx)), multiset{});
      if reqBuffer[memIdx].kind == ExpMsg {
        Answer(memIdx, from);
      } else {
        if reqBuffer[memIdx].kind == FinishedExp {
          clientsFinished := clientsFinished + 1;
          done := clientsFinished == c.workers;
          if !done && !c.receiverSrq {
            GetsOn(c, from, r, Now(ClearFinish(memIdx)), multiset{});
            Finalize(memIdx);
          }
        }
        assert sent - old(sent) == multiset{};
      }
    }
  }
}
