/**
 Selective signalling. Only signalled work requests produce completions; polling one frees its slot of the send
 queue and those of all requests posted before it. The counter must force a signal before the queue overflows.
 */
module Signaling {

  const RDMA_MAX_WR: nat := 4096

  datatype WorkRequest = WorkRequest(id: nat, signaled: bool)

  /** The counter of a connection, and its posted requests not known to be complete, oldest first. */
  datatype Channel = Channel(count: nat, outstanding: seq<WorkRequest>)

  /** A send, write, write with immediate or read; a read that is not waited for; waiting for the oldest completion. */
  datatype Op = Access(signaled: bool) | RequestRead | PollSend

  /** First signalled request from i on, or the length. */
  function FirstSignaled(q: seq<WorkRequest>, i: nat): (k: nat)
    requires i <= |q|
    ensures i <= k <= |q| && (k < |q| ==> q[k].signaled)
    ensures forall j :: i <= j < k ==> !q[j].signaled
    decreases |q| - i
  {
    if i == |q| || q[i].signaled then i else FirstSignaled(q, i + 1)
  }

  predicate HasSignaled(q: seq<WorkRequest>) { FirstSignaled(q, 0) < |q| }

  /** Polling the oldest completion: all requests up to it are known complete. */
  function Reap(q: seq<WorkRequest>): seq<WorkRequest> {
    var k := FirstSignaled(q, 0);
    if k < |q| then q[k + 1..] else q
  }

  /** The counter and the flag after the check. */
  function Checked(count: nat, signaled: bool): (nat, bool) {
    if signaled then (0, true)
    else if count + 1 == RDMA_MAX_WR then (0, true)
    else (count + 1, false)
  }

  function Posted(ch: Channel, signaled: bool, id: nat): Channel {
    var (count, flag) := Checked(ch.count, signaled);
    Channel(count, ch.outstanding + [WorkRequest(id, flag)])
  }

  function Call(ch: Channel, op: Op, id: nat): Channel {
    match op
    case Access(signaled) =>
      var p := Posted(ch, signaled, id);
      if Checked(ch.count, signaled).1 then p.(outstanding := Reap(p.outstanding)) else p
    case RequestRead => Posted(ch, true, id)
    case PollSend => ch.(outstanding := Reap(ch.outstanding))
  }

  /** The counter is exact, the send queue has room, and no completion is left over. */
  ghost predicate Accounted(ch: Channel) {
    && |ch.outstanding| == ch.count < RDMA_MAX_WR
    && !HasSignaled(ch.outstanding)
  }

  lemma FirstIsLast(q: seq<WorkRequest>, id: nat)
    requires !HasSignaled(q)
    ensures FirstSignaled(q + [WorkRequest(id, true)], 0) == |q|
    ensures !HasSignaled(q + [WorkRequest(id, false)])
    ensures Reap(q + [WorkRequest(id, true)]) == []
  {
    var with, without := q + [WorkRequest(id, true)], q + [WorkRequest(id, false)];
    assert forall j :: 0 <= j < |q| ==> with[j] == q[j] && without[j] == q[j] && !q[j].signaled;
    assert with[|q|].signaled && !without[|q|].signaled;
  }

  /**
   A send, write or read finds room and keeps the count exact. If it is signalled, or the last the queue has room for,
   it is posted signalled, reaps its own completion and leaves nothing behind; otherwise it is counted and left.
   */
  lemma AccessKeeps(ch: Channel, signaled: bool, id: nat)
    requires Accounted(ch)
    ensures |Posted(ch, signaled, id).outstanding| <= RDMA_MAX_WR
    ensures Accounted(Call(ch, Access(signaled), id))
    ensures signaled || ch.count == RDMA_MAX_WR - 1 ==>
              && Posted(ch, signaled, id).outstanding == ch.outstanding + [WorkRequest(id, true)]
              && Call(ch, Access(signaled), id) == Channel(0, [])
    ensures !signaled && ch.count < RDMA_MAX_WR - 1 ==>
              Call(ch, Access(signaled), id) == Channel(ch.count + 1, ch.outstanding + [WorkRequest(id, false)])
    ensures Checked(ch.count, signaled).1 ==>
              var q := Posted(ch, signaled, id).outstanding; FirstSignaled(q, 0) < |q| && q[FirstSignaled(q, 0)].id == id
  {
    FirstIsLast(ch.outstanding, id);
  }

  /** What an access promises its caller if the account was exact: a signalled one has reaped its own completion and
      left nothing behind, another one is outstanding or was forced to do the same. */
  ghost predicate Settled(before: Channel, signaled: bool, after: Channel, id: nat, reaped: nat) {
    Accounted(before) ==>
      && Accounted(after)
      && (signaled || before.count == RDMA_MAX_WR - 1 ==> after.count == 0 && after.outstanding == [] && reaped == id)
      && (!signaled && before.count < RDMA_MAX_WR - 1 ==>
            after.count == before.count + 1 && after.outstanding == before.outstanding + [WorkRequest(id, false)])
  }

  /** After a read that is not waited for, only polling its completion restores the account. */
  lemma RequestReadNeedsPoll(ch: Channel, id: nat, op: Op, next: nat)
    requires Accounted(ch)
    ensures |Call(ch, RequestRead, id).outstanding| <= RDMA_MAX_WR
    ensures Call(ch, RequestRead, id) == Channel(0, ch.outstanding + [WorkRequest(id, true)])
    ensures Call(Call(ch, RequestRead, id), PollSend, next) == Channel(0, [])
    ensures Accounted(Call(Call(ch, RequestRead, id), op, next)) <==> op.PollSend?
  {
    var q := ch.outstanding + [WorkRequest(id, true)];
    FirstIsLast(ch.outstanding, id);
    if op.Access? {
      var flag := Checked(0, op.signaled).1;
      FirstKept(q, WorkRequest(next, flag));
      assert Reap(q + [WorkRequest(next, flag)]) == [WorkRequest(next, flag)];
    }
  }

  lemma FirstKept(q: seq<WorkRequest>, w: WorkRequest)
    requires HasSignaled(q)
    ensures FirstSignaled(q + [w], 0) == FirstSignaled(q, 0)
  {
    var k := FirstSignaled(q + [w], 0);
    var n := FirstSignaled(q, 0);
    assert (q + [w])[n].signaled;
    assert k < |q| ==> q[k].signaled;
  }

  /* ---- whole runs ---- */

  function After(ch: Channel, ops: seq<Op>, id: nat): Channel
    decreases |ops|
  {
    if ops == [] then ch else After(Call(ch, ops[0], id), ops[1..], id + 1)
  }

  /** The most requests ever outstanding, counted when the last one has just been posted. */
  function Peak(ch: Channel, ops: seq<Op>, id: nat): nat
    decreases |ops|
  {
    if ops == [] then |ch.outstanding|
    else
      var now := if ops[0].Access? then |Posted(ch, ops[0].signaled, id).outstanding| else |ch.outstanding|;
      var later := Peak(Call(ch, ops[0], id), ops[1..], id + 1);
      if now > later then now else later
  }

  /** Every RequestRead is followed at once by PollSend, and PollSend is used for nothing else. */
  predicate Disciplined(ops: seq<Op>)
    decreases |ops|
  {
    || ops == []
    || (ops[0].Access? && Disciplined(ops[1..]))
    || (|ops| >= 2 && ops[0].RequestRead? && ops[1].PollSend? && Disciplined(ops[2..]))
  }

  /** Whatever is called with whatever flags, the queue never overflows and the counter is exact in the end. */
  lemma {:induction false} RunAccounted(ch: Channel, ops: seq<Op>, id: nat)
    requires Accounted(ch) && Disciplined(ops)
    ensures Accounted(After(ch, ops, id)) && Peak(ch, ops, id) <= RDMA_MAX_WR
    decreases |ops|
  {
    if ops != [] {
      if ops[0].Access? {
        AccessKeeps(ch, ops[0].signaled, id);
        RunAccounted(Call(ch, ops[0], id), ops[1..], id + 1);
      } else {
        RequestReadNeedsPoll(ch, id, PollSend, id + 1);
        var ch2 := Call(Call(ch, RequestRead, id), PollSend, id + 1);
        assert ops[1..][0] == PollSend && ops[1..][1..] == ops[2..];
        RunAccounted(ch2, ops[2..], id + 2);
        assert After(ch, ops, id) == After(ch2, ops[2..], id + 2);
      }
    }
  }

  /** Every RequestRead that is followed by a call is followed by PollSend. */
  predicate Followed(ops: seq<Op>)
    decreases |ops|
  {
    |ops| >= 2 ==> (ops[0].RequestRead? ==> ops[1].PollSend?) && Followed(ops[1..])
  }

  /** The account is exact after every call but a RequestRead. */
  ghost predicate ExactThroughout(ch: Channel, ops: seq<Op>, id: nat)
    decreases |ops|
  {
    ops == []
    || ((ops[0].RequestRead? || Accounted(Call(ch, ops[0], id))) && ExactThroughout(Call(ch, ops[0], id), ops[1..], id + 1))
  }

  /** Completions still to come or to be taken. */
  function Signals(q: seq<WorkRequest>): nat {
    if q == [] then 0 else Signals(q[..|q| - 1]) + if q[|q| - 1].signaled then 1 else 0
  }

  lemma {:induction false} NoSignals(q: seq<WorkRequest>)
    ensures HasSignaled(q) <==> Signals(q) > 0
  {
    if q != [] {
      var n := |q| - 1;
      NoSignals(q[..n]);
      assert q == q[..n] + [q[n]];
      FirstKeptIf(q[..n], q[n]);
    }
  }

  lemma FirstKeptIf(q: seq<WorkRequest>, w: WorkRequest)
    ensures HasSignaled(q + [w]) <==> HasSignaled(q) || w.signaled
  {
    if HasSignaled(q) {
      FirstKept(q, w);
    } else {
      FirstIsLast(q, w.id);
    }
  }

  lemma {:induction false} SignalsAdd(x: seq<WorkRequest>, y: seq<WorkRequest>)
    ensures Signals(x + y) == Signals(x) + Signals(y)
    decreases |y|
  {
    if y == [] {
      assert x + y == x;
    } else {
      assert (x + y)[..|x + y| - 1] == x + y[..|y| - 1];
      SignalsAdd(x, y[..|y| - 1]);
    }
  }

  /** A poll takes at most one completion. */
  lemma ReapTakesOne(q: seq<WorkRequest>)
    ensures Signals(Reap(q)) + 1 >= Signals(q)
  {
    var k := FirstSignaled(q, 0);
    if k < |q| {
      assert q == q[..k + 1] + q[k + 1..];
      SignalsAdd(q[..k + 1], q[k + 1..]);
      assert q[..k + 1][..k] == q[..k];
      assert !HasSignaled(q[..k]);
      NoSignals(q[..k]);
    }
  }

  /** With two completions owed no call settles the account, whatever comes next. */
  lemma {:induction false} TwoOwed(ch: Channel, ops: seq<Op>, id: nat)
    requires Signals(ch.outstanding) >= 2 && ops != [] && !ops[|ops| - 1].RequestRead?
    ensures !ExactThroughout(ch, ops, id)
    decreases |ops|
  {
    var next := Call(ch, ops[0], id);
    match ops[0]
    case RequestRead =>
      SignalsAdd(ch.outstanding, [WorkRequest(id, true)]);
      TwoOwed(next, ops[1..], id + 1);
    case PollSend =>
      ReapTakesOne(ch.outstanding);
      NoSignals(next.outstanding);
    case Access(signaled) =>
      OneOwedAfter(ch, signaled, id);
      NoSignals(next.outstanding);
  }

  lemma OneOwedAfter(ch: Channel, signaled: bool, id: nat)
    requires Signals(ch.outstanding) >= 2
    ensures Signals(Call(ch, Access(signaled), id).outstanding) >= 1
  {
    var flag := Checked(ch.count, signaled).1;
    SignalsAdd(ch.outstanding, [WorkRequest(id, flag)]);
    ReapTakesOne(ch.outstanding + [WorkRequest(id, flag)]);
  }

  /**
   For any sequence of calls that does not end in a RequestRead: the account is exact after every other call exactly
   if every RequestRead is followed at once by PollSend.
   */
  lemma {:induction false} ExactIffFollowed(ch: Channel, ops: seq<Op>, id: nat)
    requires Accounted(ch) && (ops != [] ==> !ops[|ops| - 1].RequestRead?)
    ensures ExactThroughout(ch, ops, id) <==> Followed(ops)
    decreases |ops|
  {
    if ops != [] {
      var next := Call(ch, ops[0], id);
      match ops[0]
      case Access(signaled) => AccessKeeps(ch, signaled, id); ExactIffFollowed(next, ops[1..], id + 1);
      case PollSend => ExactIffFollowed(next, ops[1..], id + 1);
      case RequestRead => AfterRequestRead(ch, ops, id);
    }
  }

  lemma {:induction false} AfterRequestRead(ch: Channel, ops: seq<Op>, id: nat)
    requires Accounted(ch) && ops != [] && ops[0].RequestRead? && !ops[|ops| - 1].RequestRead?
    ensures ExactThroughout(ch, ops, id) <==> Followed(ops)
    decreases |ops|, 0
  {
    var next := Call(ch, ops[0], id);
    var later := Call(next, ops[1], id + 1);
    RequestReadNeedsPoll(ch, id, ops[1], id + 1);
    assert ops[1..][1..] == ops[2..];
    if ops[1].PollSend? {
      ExactIffFollowed(later, ops[2..], id + 2);
      assert Followed(ops[1..]) <==> Followed(ops[2..]);
    } else if ops[1].RequestRead? {
      SignalsAdd(ch.outstanding, [WorkRequest(id, true)]);
      SignalsAdd(next.outstanding, [WorkRequest(id + 1, true)]);
      TwoOwed(later, ops[2..], id + 2);
    }
  }

  function Unsignaled(n: nat): seq<Op> { seq(n, _ => Access(false)) }

  lemma {:induction false} UnsignaledCount(ch: Channel, n: nat, id: nat)
    requires Accounted(ch) && ch.count + n < RDMA_MAX_WR
    ensures After(ch, Unsignaled(n), id).count == ch.count + n && Accounted(After(ch, Unsignaled(n), id))
    decreases n
  {
    if n > 0 {
      AccessKeeps(ch, false, id);
      assert Unsignaled(n)[1..] == Unsignaled(n - 1);
      UnsignaledCount(Call(ch, Access(false), id), n - 1, id + 1);
    }
  }

  /** Without the poll the queue can overflow: the counter has forgotten what the read left outstanding. */
  lemma UnpolledReadOverflows(id: nat)
    ensures var ch := After(Channel(0, []), Unsignaled(RDMA_MAX_WR - 1), id);
            |Call(Call(ch, RequestRead, id), Access(false), id).outstanding| == RDMA_MAX_WR + 1
  {
    UnsignaledCount(Channel(0, []), RDMA_MAX_WR - 1, id);
  }

  /* ---- the calls themselves ---- */

  /** Connections of one node. The card executes the requests of a queue in order. */
  class Connections {
    var m_countWR: seq<nat>
    var outstanding: seq<seq<WorkRequest>>
    var executed: seq<nat>
    var nextId: nat

    ghost predicate Valid()
      reads this
    {
      && |m_countWR| == |outstanding| == |executed|
      && forall c :: 0 <= c < |executed| ==> executed[c] <= |outstanding[c]|
    }

    function At(conn: nat): Channel
      requires conn < |m_countWR| && conn < |outstanding|
      reads this
    {
      Channel(m_countWR[conn], outstanding[conn])
    }

    /** Nothing but connection conn has changed. */
    twostate predicate Only(conn: nat)
      reads this
    {
      && |m_countWR| == |old(m_countWR)| && |outstanding| == |old(outstanding)|
      && (forall c :: 0 <= c < |m_countWR| && c != conn ==> m_countWR[c] == old(m_countWR)[c])
      && forall c :: 0 <= c < |outstanding| && c != conn ==> outstanding[c] == old(outstanding)[c]
    }

    constructor ()
      ensures Valid() && m_countWR == []
    {
      m_countWR, outstanding, executed, nextId := [], [], [], 0;
    }

    /**
     A queue pair under this number; the tables grow to hold it. With `newPair` it is a new one; otherwise it is the
     pair that is there already, as for unreliable connections. The counter of an old number is not reset.
     */
    method SetQP(conn: nat, newPair: bool)
      requires Valid()
      modifies this
      ensures Valid() && |m_countWR| == if conn < |old(m_countWR)| then |old(m_countWR)| else conn + 1
      ensures m_countWR[..|old(m_countWR)|] == old(m_countWR)
      ensures forall c :: 0 <= c < |old(outstanding)| && c != conn ==> outstanding[c] == old(outstanding)[c]
      ensures conn < |old(m_countWR)| ==> outstanding[conn] == if newPair then [] else old(outstanding)[conn]
      ensures forall c :: |old(m_countWR)| <= c <= conn ==> Accounted(At(c)) && m_countWR[c] == 0
      ensures newPair ==> (Accounted(At(conn)) <==> conn >= |old(m_countWR)| || old(m_countWR)[conn] == 0)
    {
      if |m_countWR| < conn + 1 {
        var more := conn + 1 - |m_countWR|;
        m_countWR := m_countWR + seq(more, _ => 0);
        outstanding := outstanding + seq(more, _ => []);
        executed := executed + seq(more, _ => 0);
      }
      if newPair {
        outstanding := outstanding[conn := []];
        executed := executed[conn := 0];
      }
    }

    method CheckSignaled(signaled: bool, conn: nat) returns (flag: bool)
      requires Valid() && conn < |m_countWR|
      modifies this`m_countWR
      ensures |m_countWR| == |old(m_countWR)|
      ensures (m_countWR[conn], flag) == Checked(old(m_countWR)[conn], signaled)
      ensures m_countWR == old(m_countWR)[conn := m_countWR[conn]]
    {
      flag := signaled;
      if flag {
        m_countWR := m_countWR[conn := 0];
        return;
      }
      m_countWR := m_countWR[conn := m_countWR[conn] + 1];
      if m_countWR[conn] == RDMA_MAX_WR {
        flag := true;
        m_countWR := m_countWR[conn := 0];
      }
    }

    method PostSend(conn: nat, signaled: bool) returns (id: nat)
      requires Valid() && conn < |m_countWR|
      modifies this`outstanding, this`nextId
      ensures id == old(nextId) && nextId == id + 1
      ensures outstanding == old(outstanding)[conn := old(outstanding)[conn] + [WorkRequest(id, signaled)]]
    {
      id := nextId;
      nextId := nextId + 1;
      outstanding := outstanding[conn := outstanding[conn] + [WorkRequest(id, signaled)]];
    }

    /** One look at the completion queue. Between two looks the card executes at least one request, if there is any. */
    method PollCq(conn: nat) returns (ne: nat, id: nat)
      requires Valid() && conn < |m_countWR|
      modifies this`outstanding, this`executed
      ensures Valid() && ne <= 1
      ensures ne == 0 ==> outstanding == old(outstanding) && executed[conn] >= old(executed)[conn]
      ensures ne == 0 && HasSignaled(outstanding[conn]) ==> executed[conn] > old(executed)[conn]
      ensures ne == 1 ==>
                && HasSignaled(old(outstanding)[conn])
                && id == old(outstanding)[conn][FirstSignaled(old(outstanding)[conn], 0)].id
                && outstanding == old(outstanding)[conn := Reap(old(outstanding)[conn])]
    {
      var total := |outstanding[conn]|;
      var done :| executed[conn] <= done <= total && (executed[conn] < total ==> executed[conn] < done);
      var first := FirstSignaled(outstanding[conn], 0);
      if first < done {
        ne, id := 1, outstanding[conn][first].id;
        outstanding := outstanding[conn := outstanding[conn][first + 1..]];
        executed := executed[conn := done - (first + 1)];
      } else {
        ne, id := 0, 0;
        executed := executed[conn := done];
      }
    }

    /** Polls until a completion is there. */
    method AwaitCompletion(conn: nat) returns (id: nat)
      requires Valid() && conn < |m_countWR| && HasSignaled(outstanding[conn])
      modifies this`outstanding, this`executed
      ensures Valid()
      ensures id == old(outstanding)[conn][FirstSignaled(old(outstanding)[conn], 0)].id
      ensures outstanding == old(outstanding)[conn := Reap(old(outstanding)[conn])]
    {
      var ne := 0;
      id := 0;
      while ne == 0
        invariant Valid() && conn < |m_countWR|
        invariant ne == 0 ==> outstanding == old(outstanding)
        invariant ne != 0 ==>
                    && id == old(outstanding)[conn][FirstSignaled(old(outstanding)[conn], 0)].id
                    && outstanding == old(outstanding)[conn := Reap(old(outstanding)[conn])]
        decreases if ne == 0 then 1 else 0, |outstanding[conn]| - executed[conn]
      {
        ne, id := PollCq(conn);
      }
    }

    /** Posts a one-sided access and, if it is signalled and to be waited for, polls a completion. */
    method RemoteAccess(conn: nat, signaled: bool, wait: bool) returns (id: nat, reaped: nat)
      requires Valid() && conn < |m_countWR| && (!wait ==> signaled)
      modifies this
      ensures Valid() && Only(conn)
      ensures At(conn) == Call(old(At(conn)), if wait then Access(signaled) else Op.RequestRead, id)
      ensures wait ==> Settled(old(At(conn)), signaled, At(conn), id, reaped)
    {
      var flag := CheckSignaled(signaled, conn);
      id := PostSend(conn, flag);
      reaped := 0;
      assert At(conn) == Posted(old(At(conn)), signaled, id);
      if flag && wait {
        OwnSignaled(old(outstanding)[conn], id);
        reaped := AwaitCompletion(conn);
      }
      if Accounted(old(At(conn))) {
        AccessKeeps(old(At(conn)), signaled, id);
      }
    }

    method Write(conn: nat, signaled: bool) returns (id: nat, reaped: nat)
      requires Valid() && conn < |m_countWR|
      modifies this
      ensures Valid() && Only(conn) && At(conn) == Call(old(At(conn)), Access(signaled), id)
      ensures Settled(old(At(conn)), signaled, At(conn), id, reaped)
    {
      id, reaped := RemoteAccess(conn, signaled, true);
    }

    method Read(conn: nat, signaled: bool) returns (id: nat, reaped: nat)
      requires Valid() && conn < |m_countWR|
      modifies this
      ensures Valid() && Only(conn) && At(conn) == Call(old(At(conn)), Access(signaled), id)
      ensures Settled(old(At(conn)), signaled, At(conn), id, reaped)
    {
      id, reaped := RemoteAccess(conn, signaled, true);
    }

    method RequestRead(conn: nat) returns (id: nat)
      requires Valid() && conn < |m_countWR|
      modifies this
      ensures Valid() && Only(conn) && At(conn) == Call(old(At(conn)), Op.RequestRead, id)
      ensures m_countWR[conn] == 0 && outstanding[conn] == old(outstanding)[conn] + [WorkRequest(id, true)]
    {
      var reaped: nat;
      id, reaped := RemoteAccess(conn, true, false);
    }

    method PollSend(conn: nat) returns (reaped: nat)
      requires Valid() && conn < |m_countWR| && HasSignaled(outstanding[conn])
      modifies this
      ensures Valid() && Only(conn) && At(conn) == Call(old(At(conn)), Op.PollSend, 0)
      ensures reaped == old(outstanding)[conn][FirstSignaled(old(outstanding)[conn], 0)].id
    {
      reaped := AwaitCompletion(conn);
    }

    /** Two-sided send over a reliable connection: same check, post and wait. */
    method Send(conn: nat, signaled: bool) returns (id: nat, reaped: nat)
      requires Valid() && conn < |m_countWR|
      modifies this
      ensures Valid() && Only(conn) && At(conn) == Call(old(At(conn)), Access(signaled), id)
      ensures Settled(old(At(conn)), signaled, At(conn), id, reaped)
    {
      var flag := CheckSignaled(signaled, conn);
      id := PostSend(conn, flag);
      reaped := 0;
      assert At(conn) == Posted(old(At(conn)), signaled, id);
      if flag {
        OwnSignaled(old(outstanding)[conn], id);
        reaped := AwaitCompletion(conn);
      }
      if Accounted(old(At(conn))) {
        AccessKeeps(old(At(conn)), signaled, id);
      }
    }

    /** Over the one unreliable queue pair all connections share its counter, number 0. */
    method UnreliableSend(conn: nat, signaled: bool) returns (id: nat, reaped: nat)
      requires Valid() && conn < |m_countWR|
      modifies this
      ensures Valid() && Only(0) && At(0) == Call(old(At(0)), Access(signaled), id)
      ensures Settled(old(At(0)), signaled, At(0), id, reaped)
    {
      id, reaped := Send(0, signaled);
    }
  }

  lemma OwnSignaled(q: seq<WorkRequest>, id: nat)
    ensures HasSignaled(q + [WorkRequest(id, true)])
  {
    assert (q + [WorkRequest(id, true)])[|q|].signaled;
  }
}
