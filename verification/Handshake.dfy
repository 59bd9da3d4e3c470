/**
 Two servers that dial each other. Each runs a client (connect) and a handler of the other's connection request
 (connectQueue, which holds the connection lock from its first to its last step). The smaller ID backs off.
 */
module Handshake {

  datatype Option<T> = None | Some(value: T)

  /** The client's steps. `qp` is its own queue pair, `remote` the one the answer names. */
  datatype ClientPc =
    | NotCalled
    | Flagged                            // has set the flag for the peer, under the lock
    | Created(qp: nat)                   // has a queue pair outside the tables
    | Waiting(qp: nat)                   // request on its way
    | Handling(qp: nat)                  // request in the peer's handler
    | Accepted(qp: nat, remote: nat)     // answer on its way
    | Storing(qp: nat, remote: nat)
    | Connecting(qp: nat, remote: nat)
    | Linked(qp: nat, remote: nat)       // connect has returned, connected by itself
    | Rejected(qp: nat)                  // refusal on its way
    | Refused                            // connect has returned after a refusal
    | Yielded                            // connect has returned at once: the peer had come first

  /** The handler's steps; it holds the lock unless it is idle. `qp` is the queue pair the request names. */
  datatype HandlerPc = Idle | Admitted(qp: nat) | Prepared(qp: nat) | Named(qp: nat) | Answering(qp: nat)

  /** What a node stores about its peer, and its queue pairs with the remote ends they are connected to. */
  datatype Tables = Tables(
    slot: Option<nat>, local: Option<nat>, remote: Option<nat>, connected: bool,
    links: map<nat, nat>, live: set<nat>)

  datatype Node = Node(flag: bool, tables: Tables, next: nat, client: ClientPc, handler: HandlerPc)

  datatype Step = ClientStep(n: nat) | HandlerStep(n: nat)

  const EMPTY := Tables(None, None, None, false, map[], {})

  function Init(): seq<Node> { [Node(false, EMPTY, 0, NotCalled, Idle), Node(false, EMPTY, 0, NotCalled, Idle)] }

  /** Connects the stored queue pair, unless something has been connected before. */
  function ConnectQP(t: Tables): Tables
    requires t.slot.Some? && t.remote.Some?
  {
    if t.connected then t else t.(links := t.links[t.slot.value := t.remote.value], connected := true)
  }

  predicate Returned(c: ClientPc) { c.Linked? || c.Refused? || c.Yielded? }

  predicate Enabled(s: seq<Node>, step: Step)
    requires |s| == 2
  {
    step.n < 2 &&
    match step
    case ClientStep(n) =>
      var c := s[n].client;
      && !Returned(c) && !c.Waiting? && !c.Handling? && (c.NotCalled? ==> s[n].handler.Idle?)
      && (c.Connecting? ==> s[n].tables.slot.Some? && s[n].tables.remote.Some?)
    case HandlerStep(n) =>
      && (s[n].handler.Idle? ==> s[1 - n].client.Waiting?)
      && (s[n].handler.Named? ==> s[n].tables.slot.Some? && s[n].tables.remote.Some?)
      && (s[n].handler.Answering? ==> s[n].tables.local.Some? && s[1 - n].client.Handling?)
  }

  function Apply(ids: seq<nat>, s: seq<Node>, step: Step): seq<Node>
    requires |ids| == 2 && |s| == 2 && Enabled(s, step)
  {
    match step
    case ClientStep(n) => s[n := Dial(s[n])]
    case HandlerStep(n) => Serve(ids, s, n)
  }

  function Dial(v: Node): Node
    requires v.client.Connecting? ==> v.tables.slot.Some? && v.tables.remote.Some?
  {
    var t := v.tables;
    match v.client
    case NotCalled => if v.flag then v.(client := Yielded) else v.(flag := true, client := Flagged)
    case Flagged => v.(tables := t.(live := t.live + {v.next}), next := v.next + 1, client := Created(v.next))
    case Created(qp) => v.(client := Waiting(qp))
    case Accepted(qp, remote) => v.(tables := t.(slot := Some(qp), local := Some(qp)), client := Storing(qp, remote))
    case Storing(qp, remote) => v.(tables := t.(remote := Some(remote)), client := Connecting(qp, remote))
    case Connecting(qp, remote) => v.(tables := ConnectQP(t), client := Linked(qp, remote))
    case Rejected(qp) => v.(tables := t.(live := t.live - {qp}), client := Refused)
    case _ => v
  }

  function Serve(ids: seq<nat>, s: seq<Node>, n: nat): seq<Node>
    requires |ids| == 2 && |s| == 2 && n < 2 && Enabled(s, HandlerStep(n))
  {
    var v := s[n];
    var t := v.tables;
    var caller := s[1 - n].client;
    match v.handler
    case Idle =>
      if v.flag && ids[1 - n] < ids[n] then s[1 - n := s[1 - n].(client := Rejected(caller.qp))]
      else s[n := v.(flag := true, handler := Admitted(caller.qp))][1 - n := s[1 - n].(client := Handling(caller.qp))]
    case Admitted(qp) =>
      s[n := v.(tables := t.(slot := Some(v.next), local := Some(v.next), live := t.live + {v.next}),
                next := v.next + 1, handler := Prepared(qp))]
    case Prepared(qp) => s[n := v.(tables := t.(remote := Some(qp)), handler := Named(qp))]
    case Named(qp) => s[n := v.(tables := ConnectQP(t), handler := Answering(qp))]
    case Answering(_) =>
      s[n := v.(handler := Idle)][1 - n := s[1 - n].(client := Accepted(caller.qp, t.local.value))]
  }

  /** The steps, in this order, lead from s to t: one interleaving of the two servers. */
  predicate Leads(ids: seq<nat>, s: seq<Node>, steps: seq<Step>, t: seq<Node>)
    requires |ids| == 2
    decreases |steps|
  {
    |s| == 2 &&
    if steps == [] then s == t else Enabled(s, steps[0]) && Leads(ids, Apply(ids, s, steps[0]), steps[1..], t)
  }

  /* ---- the invariant ---- */

  /** The answer to this client was or will be yes. */
  predicate Answered(c: ClientPc) { c.Accepted? || c.Storing? || c.Connecting? || c.Linked? }

  predicate Welcome(c: ClientPc) { c.Handling? || Answered(c) }

  predicate Dialed(c: ClientPc) { !c.NotCalled? && !c.Yielded? }

  function OwnPairs(c: ClientPc): set<nat> {
    if c.NotCalled? || c.Yielded? || c.Flagged? || c.Refused? then {} else {c.qp}
  }

  /** The queue pair the handler has made for the caller. */
  function Made(v: Node, caller: ClientPc): Option<nat> {
    if Answered(caller) then Some(caller.remote)
    else if v.handler.Prepared? || v.handler.Named? || v.handler.Answering? then v.tables.local
    else None
  }

  function Pairs(v: Node, caller: ClientPc): set<nat> {
    OwnPairs(v.client) + match Made(v, caller) case None => {} case Some(q) => {q}
  }

  /** What a node's tables hold, given how far its own call and its handling of the peer's call are. */
  ghost predicate TablesOk(v: Node, caller: ClientPc) {
    var t := v.tables;
    && t.live == Pairs(v, caller)
    && (forall q :: q in t.live ==> q < v.next)
    && (Made(v, caller).Some? ==> Made(v, caller).value !in OwnPairs(v.client))
    && if Welcome(caller) then
         var made := Made(v, caller);
         && t.slot == t.local == made
         && (Answered(caller) || v.handler.Prepared? || v.handler.Named? || v.handler.Answering? ==> made.Some?)
         && t.remote == (if Answered(caller) || v.handler.Named? || v.handler.Answering? then Some(caller.qp) else None)
         && t.connected == (Answered(caller) || v.handler.Answering?)
         && t.links == (if t.connected && made.Some? then map[made.value := caller.qp] else map[])
       else
         var c := v.client;
         && t.slot == t.local == (if c.Storing? || c.Connecting? || c.Linked? then Some(c.qp) else None)
         && t.remote == (if c.Connecting? || c.Linked? then Some(c.remote) else None)
         && t.connected == c.Linked?
         && t.links == (if c.Linked? then map[c.qp := c.remote] else map[])
  }

  /** Who may be where. */
  ghost predicate NodeOk(ids: seq<nat>, s: seq<Node>, n: nat)
    requires |ids| == 2 && |s| == 2 && n < 2
  {
    var v, caller := s[n], s[1 - n].client;
    && (v.flag <==> Dialed(v.client) || Welcome(caller) || v.client.Yielded?)
    && (v.client.Yielded? ==> Welcome(caller))
    && (Welcome(caller) && Dialed(v.client) ==> ids[n] < ids[1 - n] && !Welcome(v.client))
    && (caller.Rejected? || caller.Refused? ==> ids[1 - n] < ids[n] && Dialed(v.client))
    && (caller.Handling? <==> !v.handler.Idle?)
    && (!v.handler.Idle? ==> v.handler.qp == caller.qp)
    && TablesOk(v, caller)
  }

  ghost predicate Inv(ids: seq<nat>, s: seq<Node>) {
    |ids| == 2 && |s| == 2 && NodeOk(ids, s, 0) && NodeOk(ids, s, 1)
  }

  lemma DialOwn(ids: seq<nat>, s: seq<Node>, n: nat)
    requires Inv(ids, s) && ids[0] != ids[1] && n < 2 && Enabled(s, ClientStep(n))
    ensures NodeOk(ids, Apply(ids, s, ClientStep(n)), n)
  {
    assert NodeOk(ids, s, n);
  }

  lemma DialPeer(ids: seq<nat>, s: seq<Node>, n: nat)
    requires Inv(ids, s) && ids[0] != ids[1] && n < 2 && Enabled(s, ClientStep(n))
    ensures NodeOk(ids, Apply(ids, s, ClientStep(n)), 1 - n)
  {
    assert NodeOk(ids, s, 1 - n);
  }

  lemma DialKeeps(ids: seq<nat>, s: seq<Node>, n: nat)
    requires Inv(ids, s) && ids[0] != ids[1] && n < 2 && Enabled(s, ClientStep(n))
    ensures Inv(ids, Apply(ids, s, ClientStep(n)))
  {
    hide NodeOk, Dial;
    DialOwn(ids, s, n);
    DialPeer(ids, s, n);
  }

  /** The check of the flag, which is where the tie is broken. */
  lemma CheckKeeps(ids: seq<nat>, s: seq<Node>, n: nat)
    requires Inv(ids, s) && ids[0] != ids[1] && n < 2 && Enabled(s, HandlerStep(n)) && s[n].handler.Idle?
    ensures Inv(ids, Serve(ids, s, n))
  {
    assert NodeOk(ids, s, n) && NodeOk(ids, s, 1 - n);
    var s' := Serve(ids, s, n);
    assert NodeOk(ids, s', n);
    assert NodeOk(ids, s', 1 - n);
  }

  lemma WorkKeeps(ids: seq<nat>, s: seq<Node>, n: nat)
    requires Inv(ids, s) && ids[0] != ids[1] && n < 2 && Enabled(s, HandlerStep(n))
    requires s[n].handler.Admitted? || s[n].handler.Prepared? || s[n].handler.Named?
    ensures Inv(ids, Serve(ids, s, n))
  {
    assert NodeOk(ids, s, n) && NodeOk(ids, s, 1 - n);
    var s' := Serve(ids, s, n);
    assert NodeOk(ids, s', n);
    hide TablesOk;
    assert s'[1 - n] == s[1 - n];
    assert NodeOk(ids, s', 1 - n);
  }

  lemma AnswerKeeps(ids: seq<nat>, s: seq<Node>, n: nat)
    requires Inv(ids, s) && ids[0] != ids[1] && n < 2 && Enabled(s, HandlerStep(n)) && s[n].handler.Answering?
    ensures Inv(ids, Serve(ids, s, n))
  {
    assert NodeOk(ids, s, n) && NodeOk(ids, s, 1 - n);
    var s' := Serve(ids, s, n);
    assert NodeOk(ids, s', n);
    assert NodeOk(ids, s', 1 - n);
  }

  lemma ServeKeeps(ids: seq<nat>, s: seq<Node>, n: nat)
    requires |ids| == 2 && |s| == 2 && Inv(ids, s) && ids[0] != ids[1] && n < 2 && Enabled(s, HandlerStep(n))
    ensures Inv(ids, Serve(ids, s, n))
  {
    hide Inv, Serve;
    match s[n].handler
    case Idle => CheckKeeps(ids, s, n);
    case Answering(_) => AnswerKeeps(ids, s, n);
    case _ => WorkKeeps(ids, s, n);
  }

  lemma {:induction false} LeadsKeeps(ids: seq<nat>, s: seq<Node>, steps: seq<Step>, t: seq<Node>)
    requires |ids| == 2 && ids[0] != ids[1] && Inv(ids, s) && Leads(ids, s, steps, t)
    ensures Inv(ids, t)
    decreases |steps|
  {
    hide NodeOk, Dial, Serve;
    if steps != [] {
      match steps[0]
      case ClientStep(n) => DialKeeps(ids, s, n); LeadsKeeps(ids, Apply(ids, s, steps[0]), steps[1..], t);
      case HandlerStep(n) => ServeKeeps(ids, s, n); LeadsKeeps(ids, Apply(ids, s, steps[0]), steps[1..], t);
    }
  }

  lemma InitOk(ids: seq<nat>)
    requires |ids| == 2
    ensures Inv(ids, Init())
  {
  }

  /* ---- what it means ---- */

  /** Nothing is under way; a server that never dialed may still do so. */
  predicate Settled(s: seq<Node>)
    requires |s| == 2
  {
    forall n :: 0 <= n < 2 ==> s[n].handler.Idle? && (s[n].client.NotCalled? || Returned(s[n].client))
  }

  predicate Called(s: seq<Node>)
    requires |s| == 2
  {
    !s[0].client.NotCalled? || !s[1].client.NotCalled?
  }

  /** The tables of a node whose queue pair `own` is connected to `other` and which has no further queue pair. */
  function LinkedTables(own: nat, other: nat): Tables {
    Tables(Some(own), Some(own), Some(other), true, map[own := other], {own})
  }

  /** Both ends name each other's queue pair, and neither has any other. */
  ghost predicate OneLink(s: seq<Node>)
    requires |s| == 2
  {
    exists q, r :: s[0].tables == LinkedTables(q, r) && s[1].tables == LinkedTables(r, q)
  }

  /** Once things have settled there is exactly one link, whoever dialed and in whatever order. */
  lemma SettledOneLink(ids: seq<nat>, steps: seq<Step>, t: seq<Node>)
    requires |ids| == 2 && ids[0] != ids[1] && Leads(ids, Init(), steps, t) && |t| == 2 && Settled(t) && Called(t)
    ensures OneLink(t)
  {
    InitOk(ids);
    LeadsKeeps(ids, Init(), steps, t);
    assert NodeOk(ids, t, 0) && NodeOk(ids, t, 1);
    if t[0].client.Linked? {
      assert t[0].tables == LinkedTables(t[0].client.qp, t[0].client.remote);
      assert t[1].tables == LinkedTables(t[0].client.remote, t[0].client.qp);
    } else {
      assert t[1].client.Linked?;
      assert t[1].tables == LinkedTables(t[1].client.qp, t[1].client.remote);
      assert t[0].tables == LinkedTables(t[1].client.remote, t[1].client.qp);
    }
  }

  /** Only the caller with the smaller ID is ever refused, and then its queue pair is gone in the end. */
  lemma OnlySmallerRefused(ids: seq<nat>, steps: seq<Step>, t: seq<Node>, n: nat)
    requires |ids| == 2 && ids[0] != ids[1] && Leads(ids, Init(), steps, t) && |t| == 2 && n < 2
    ensures t[n].client.Rejected? || t[n].client.Refused? ==> ids[n] < ids[1 - n]
    ensures t[n].client.Refused? && t[n].handler.Idle? && Returned(t[1 - n].client) ==>
              t[1 - n].client.Linked? &&
              t[n].tables == LinkedTables(t[1 - n].client.remote, t[1 - n].client.qp)
  {
    InitOk(ids);
    LeadsKeeps(ids, Init(), steps, t);
    assert NodeOk(ids, t, n) && NodeOk(ids, t, 1 - n);
  }

  /** At no time are both requests welcome, so a node's tables have one writer even without the lock. */
  lemma OneWriter(ids: seq<nat>, steps: seq<Step>, t: seq<Node>)
    requires |ids| == 2 && ids[0] != ids[1] && Leads(ids, Init(), steps, t) && |t| == 2
    ensures !(Welcome(t[0].client) && Welcome(t[1].client))
  {
    InitOk(ids);
    LeadsKeeps(ids, Init(), steps, t);
    assert NodeOk(ids, t, 0) && NodeOk(ids, t, 1);
  }

  /* ---- it settles ---- */

  function ClientRank(c: ClientPc): nat {
    match c
    case NotCalled => 20
    case Flagged => 19
    case Created(_) => 18
    case Waiting(_) => 17
    case Handling(_) => 10
    case Accepted(_, _) => 9
    case Storing(_, _) => 8
    case Connecting(_, _) => 7
    case Rejected(_) => 5
    case _ => 0
  }

  function HandlerRank(h: HandlerPc): nat {
    match h
    case Idle => 0
    case Admitted(_) => 4
    case Prepared(_) => 3
    case Named(_) => 2
    case Answering(_) => 1
  }

  function Rank(s: seq<Node>): nat
    requires |s| == 2
  {
    ClientRank(s[0].client) + HandlerRank(s[0].handler) + ClientRank(s[1].client) + HandlerRank(s[1].handler)
  }

  lemma StepRank(ids: seq<nat>, s: seq<Node>, step: Step)
    requires |ids| == 2 && |s| == 2 && Enabled(s, step)
    ensures Rank(Apply(ids, s, step)) < Rank(s)
  {
  }

  /** Every step brings the end closer. */
  lemma {:induction false} LeadsIsShort(ids: seq<nat>, s: seq<Node>, steps: seq<Step>, t: seq<Node>)
    requires |ids| == 2 && |s| == 2 && Leads(ids, s, steps, t)
    ensures |t| == 2 && |steps| + Rank(t) <= Rank(s)
    decreases |steps|
  {
    hide Enabled, Apply, Rank;
    if steps != [] {
      StepRank(ids, s, steps[0]);
      LeadsIsShort(ids, Apply(ids, s, steps[0]), steps[1..], t);
    }
  }

  lemma AtMostFortySteps(ids: seq<nat>, steps: seq<Step>, t: seq<Node>)
    requires |ids| == 2 && Leads(ids, Init(), steps, t)
    ensures |steps| <= 40
  {
    LeadsIsShort(ids, Init(), steps, t);
    assert Rank(Init()) == 40;
  }

  /** Until things have settled, some step other than a first call can be taken. */
  lemma NoDeadlock(ids: seq<nat>, steps: seq<Step>, t: seq<Node>)
    requires |ids| == 2 && ids[0] != ids[1] && Leads(ids, Init(), steps, t) && |t| == 2 && !Settled(t)
    ensures exists step :: Enabled(t, step) && !(step.ClientStep? && t[step.n].client.NotCalled?)
  {
    InitOk(ids);
    LeadsKeeps(ids, Init(), steps, t);
    assert NodeOk(ids, t, 0) && NodeOk(ids, t, 1);
    var n := if !t[0].handler.Idle? || !(t[0].client.NotCalled? || Returned(t[0].client)) then 0 else 1;
    assert !t[n].handler.Idle? ==> Enabled(t, HandlerStep(n));
    assert t[n].client.Waiting? || t[n].client.Handling? ==> Enabled(t, HandlerStep(1 - n));
    assert !t[n].client.Waiting? && !t[n].client.Handling? && !t[n].client.NotCalled? && !Returned(t[n].client) ==>
      Enabled(t, ClientStep(n));
  }

  /* ---- the tie-break needs distinct IDs ---- */

  lemma {:induction false} LeadsOn(ids: seq<nat>, s: seq<Node>, xs: seq<Step>, t: seq<Node>, ys: seq<Step>, u: seq<Node>)
    requires |ids| == 2 && Leads(ids, s, xs, t) && Leads(ids, t, ys, u)
    ensures Leads(ids, s, xs + ys, u)
    decreases |xs|
  {
    hide Enabled, Apply;
    if xs == [] {
      assert xs + ys == ys;
    } else {
      assert (xs + ys)[1..] == xs[1..] + ys;
      LeadsOn(ids, Apply(ids, s, xs[0]), xs[1..], t, ys, u);
    }
  }

  lemma OneStep(ids: seq<nat>, s: seq<Node>, step: Step)
    requires |ids| == 2 && |s| == 2 && Enabled(s, step)
    ensures Leads(ids, s, [step], Apply(ids, s, step))
  {
    assert [step][1..] == [];
  }

  lemma TwoSteps(ids: seq<nat>, s: seq<Node>, x: Step, y: Step) returns (t: seq<Node>)
    requires |ids| == 2 && |s| == 2 && Enabled(s, x) && |Apply(ids, s, x)| == 2 && Enabled(Apply(ids, s, x), y)
    ensures t == Apply(ids, Apply(ids, s, x), y) && Leads(ids, s, [x, y], t)
  {
    hide Enabled, Dial, Serve;
    t := Apply(ids, Apply(ids, s, x), y);
    OneStep(ids, s, x);
    OneStep(ids, Apply(ids, s, x), y);
    LeadsOn(ids, s, [x], Apply(ids, s, x), [y], t);
    assert [x] + [y] == [x, y];
  }

  /** Both servers side by side in the same condition. */
  function Both(flag: bool, t: Tables, next: nat, c: ClientPc, h: HandlerPc): seq<Node> {
    [Node(flag, t, next, c, h), Node(flag, t, next, c, h)]
  }

  /** Two servers of equal ID that move in step: both requests are admitted. */
  lemma TwinsDial(ids: seq<nat>) returns (steps: seq<Step>, t: seq<Node>)
    requires |ids| == 2 && ids[0] == ids[1]
    ensures Leads(ids, Init(), steps, t)
    ensures t == Both(true, EMPTY.(live := {0}), 1, Handling(0), Admitted(0))
  {
    var x, y, f, g := ClientStep(0), ClientStep(1), HandlerStep(0), HandlerStep(1);
    assert {} + {0} == {0};
    var a := TwoSteps(ids, Init(), x, y);
    assert a == Both(true, EMPTY, 0, Flagged, Idle);
    var b := TwoSteps(ids, a, x, y);
    assert b == Both(true, EMPTY.(live := {0}), 1, Created(0), Idle);
    var c := TwoSteps(ids, b, x, y);
    assert c == Both(true, EMPTY.(live := {0}), 1, Waiting(0), Idle);
    t := TwoSteps(ids, c, f, g);
    assert t == Both(true, EMPTY.(live := {0}), 1, Handling(0), Admitted(0));
    steps := [x, y] + [x, y] + [x, y] + [f, g];
    LeadsOn(ids, Init(), [x, y], a, [x, y], b);
    LeadsOn(ids, Init(), [x, y] + [x, y], b, [x, y], c);
    LeadsOn(ids, Init(), [x, y] + [x, y] + [x, y], c, [f, g], t);
  }

  lemma TwinsServe(ids: seq<nat>, s: seq<Node>) returns (steps: seq<Step>, t: seq<Node>)
    requires |ids| == 2 && s == Both(true, EMPTY.(live := {0}), 1, Handling(0), Admitted(0))
    ensures Leads(ids, s, steps, t)
    ensures t == Both(true, Tables(Some(1), Some(1), Some(0), true, map[1 := 0], {0, 1}), 2, Accepted(0, 1), Idle)
  {
    var f, g := HandlerStep(0), HandlerStep(1);
    assert {0} + {1} == {0, 1} && map[][1 := 0] == map[1 := 0];
    var a := TwoSteps(ids, s, f, g);
    assert a == Both(true, Tables(Some(1), Some(1), None, false, map[], {0, 1}), 2, Handling(0), Prepared(0));
    var b := TwoSteps(ids, a, f, g);
    assert b == Both(true, Tables(Some(1), Some(1), Some(0), false, map[], {0, 1}), 2, Handling(0), Named(0));
    var c := TwoSteps(ids, b, f, g);
    assert c == Both(true, Tables(Some(1), Some(1), Some(0), true, map[1 := 0], {0, 1}), 2, Handling(0), Answering(0));
    t := TwoSteps(ids, c, f, g);
    steps := [f, g] + [f, g] + [f, g] + [f, g];
    LeadsOn(ids, s, [f, g], a, [f, g], b);
    LeadsOn(ids, s, [f, g] + [f, g], b, [f, g], c);
    LeadsOn(ids, s, [f, g] + [f, g] + [f, g], c, [f, g], t);
  }

  /** Each ends up with a stored queue pair that is not the connected one. */
  lemma TwinsConnect(ids: seq<nat>, s: seq<Node>) returns (steps: seq<Step>, t: seq<Node>)
    requires |ids| == 2
    requires s == Both(true, Tables(Some(1), Some(1), Some(0), true, map[1 := 0], {0, 1}), 2, Accepted(0, 1), Idle)
    ensures Leads(ids, s, steps, t)
    ensures t == Both(true, Tables(Some(0), Some(0), Some(1), true, map[1 := 0], {0, 1}), 2, Linked(0, 1), Idle)
  {
    var x, y := ClientStep(0), ClientStep(1);
    var a := TwoSteps(ids, s, x, y);
    assert a == Both(true, Tables(Some(0), Some(0), Some(0), true, map[1 := 0], {0, 1}), 2, Storing(0, 1), Idle);
    var b := TwoSteps(ids, a, x, y);
    assert b == Both(true, Tables(Some(0), Some(0), Some(1), true, map[1 := 0], {0, 1}), 2, Connecting(0, 1), Idle);
    t := TwoSteps(ids, b, x, y);
    steps := [x, y] + [x, y] + [x, y];
    LeadsOn(ids, s, [x, y], a, [x, y], b);
    LeadsOn(ids, s, [x, y] + [x, y], b, [x, y], t);
  }

  /** Every interleaving settles in one link. */
  ghost predicate AlwaysOneLink(ids: seq<nat>)
    requires |ids| == 2
  {
    forall steps, t :: Leads(ids, Init(), steps, t) && |t| == 2 && Settled(t) && Called(t) ==> OneLink(t)
  }

  /** The tie-break is sound exactly for distinct IDs, which is what the sequencer hands out. */
  lemma OneLinkIffIdsDiffer(ids: seq<nat>)
    requires |ids| == 2
    ensures AlwaysOneLink(ids) <==> ids[0] != ids[1]
  {
    if ids[0] != ids[1] {
      forall steps, t | Leads(ids, Init(), steps, t) && |t| == 2 && Settled(t) && Called(t) ensures OneLink(t) {
        SettledOneLink(ids, steps, t);
      }
    } else {
      var xs, a := TwinsDial(ids);
      var ys, b := TwinsServe(ids, a);
      var zs, t := TwinsConnect(ids, b);
      LeadsOn(ids, Init(), xs, a, ys, b);
      LeadsOn(ids, Init(), xs + ys, b, zs, t);
      assert t[0].tables.slot == Some(0) && 0 !in t[0].tables.links;
      assert !OneLink(t);
    }
  }

  /* ---- what a returned connect means ---- */

  /** With what has happened at node n its own tables are connected, or will be before connect can return. */
  ghost predicate Kept(ids: seq<nat>, s: seq<Node>, n: nat)
    requires |ids| == 2 && |s| == 2 && n < 2
  {
    var v := s[n];
    && (v.client.Linked? || v.client.Yielded? || v.handler.Answering? ==> v.tables.connected)
    && (v.flag && !Dialed(v.client) && v.handler.Idle? ==> v.tables.connected)
    && (v.client.Rejected? || v.client.Refused? ==> ids[n] < ids[1 - n])
    && (!v.handler.Idle? ==> v.flag)
  }

  lemma StepKept(ids: seq<nat>, s: seq<Node>, step: Step, n: nat)
    requires |ids| == 2 && |s| == 2 && Enabled(s, step) && n < 2 && Kept(ids, s, n)
    ensures |Apply(ids, s, step)| == 2 && Kept(ids, Apply(ids, s, step), n)
  {
  }

  lemma {:induction false} LeadsKept(ids: seq<nat>, s: seq<Node>, steps: seq<Step>, t: seq<Node>, n: nat)
    requires |ids| == 2 && |s| == 2 && Leads(ids, s, steps, t) && n < 2 && Kept(ids, s, n)
    ensures |t| == 2 && Kept(ids, t, n)
    decreases |steps|
  {
    hide Kept, Enabled, Apply;
    if steps != [] {
      StepKept(ids, s, steps[0], n);
      LeadsKept(ids, Apply(ids, s, steps[0]), steps[1..], t, n);
    }
  }

  function Pair(n: nat, x: Node, y: Node): seq<Node> { if n == 0 then [x, y] else [y, x] }

  /** A refused connect returns true although nothing is connected yet, at either end. */
  lemma ReturnsBeforeLinked(ids: seq<nat>, n: nat) returns (steps: seq<Step>, t: seq<Node>)
    requires |ids| == 2 && n < 2 && ids[n] < ids[1 - n]
    ensures Leads(ids, Init(), steps, t) && |t| == 2
    ensures Returned(t[n].client) && t[n].tables == EMPTY && t[1 - n].tables == EMPTY
  {
    var x, y := ClientStep(n), ClientStep(1 - n);
    assert {} + {0} == {0} && {0} - {0} == {};
    var a := TwoSteps(ids, Init(), x, x);
    assert a == Pair(n, Node(true, EMPTY.(live := {0}), 1, Created(0), Idle), Node(false, EMPTY, 0, NotCalled, Idle));
    var b := TwoSteps(ids, a, x, y);
    assert b == Pair(n, Node(true, EMPTY.(live := {0}), 1, Waiting(0), Idle), Node(true, EMPTY, 0, Flagged, Idle));
    t := TwoSteps(ids, b, HandlerStep(1 - n), x);
    assert t == Pair(n, Node(true, EMPTY, 1, Refused, Idle), Node(true, EMPTY, 0, Flagged, Idle));
    steps := [x, x] + [x, y] + [HandlerStep(1 - n), x];
    LeadsOn(ids, Init(), [x, x], a, [x, y], b);
    LeadsOn(ids, Init(), [x, x] + [x, y], b, [HandlerStep(1 - n), x], t);
  }

  /** Whenever server n's connect has returned, its end is connected. */
  ghost predicate ReturnMeansConnected(ids: seq<nat>, n: nat)
    requires |ids| == 2 && n < 2
  {
    forall steps: seq<Step>, t: seq<Node> ::
      Leads(ids, Init(), steps, t) && |t| == 2 && Returned(t[n].client) ==> t[n].tables.connected
  }

  /** connect keeps its promise exactly for a caller whose ID is not the smaller one. */
  lemma ConnectedOnReturnIff(ids: seq<nat>, n: nat)
    requires |ids| == 2 && n < 2
    ensures ReturnMeansConnected(ids, n) <==> ids[n] >= ids[1 - n]
  {
    hide Leads;
    if ids[n] >= ids[1 - n] {
      forall steps: seq<Step>, t: seq<Node> | Leads(ids, Init(), steps, t) && |t| == 2 && Returned(t[n].client)
        ensures t[n].tables.connected
      {
        LeadsKept(ids, Init(), steps, t, n);
      }
    } else {
      var steps, t := ReturnsBeforeLinked(ids, n);
      assert !t[n].tables.connected;
    }
  }
}
