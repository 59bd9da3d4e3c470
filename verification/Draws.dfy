/**
 What the random numbers of the workers decide: the receiver of every request and the prepared response it asks for.
 Every receiver and every slot that may be asked for is drawn by some numbers; since one number decides both, not every
 pair is.
 */
module Draws {
  import opened Arithmetic
  import opened Partition
  import opened Protocol
  import opened ProtocolFrames
  import opened ProtocolInvariant
  import opened ProtocolSafety
  import opened ProtocolTheorems

  /** One entry for every request of every worker. */
  ghost predicate Table(c: Config, t: seq<seq<nat>>) {
    |t| == c.workers && forall w :: 0 <= w < c.workers ==> |t[w]| == c.requests
  }

  lemma AnyDraws(c: Config, t: seq<seq<nat>>)
    requires WellFormed(c) && Table(c, t)
    ensures WellFormed(c.(rand := t)) && (EnoughCredit(c) <==> EnoughCredit(c.(rand := t)))
  {
    assert BufferLength(c.(rand := t)) == BufferLength(c);
  }

  /** Any choice of receivers, request by request, is drawn by some numbers. */
  lemma AnyTargets(c: Config, picks: seq<seq<nat>>)
    requires WellFormed(c) && Table(c, picks)
    requires forall w, i :: 0 <= w < c.workers && 0 <= i < c.requests ==> picks[w][i] < c.receivers
    ensures WellFormed(c.(rand := picks))
    ensures forall w, i :: 0 <= w < c.workers && 0 <= i < c.requests ==> Target(c.(rand := picks), w, i) == picks[w][i]
  {
    AnyDraws(c, picks);
    forall w, i | 0 <= w < c.workers && 0 <= i < c.requests
      ensures Target(c.(rand := picks), w, i) == picks[w][i]
    {
      assert picks[w][i] < c.receivers;
    }
  }

  /** The slots worker w may ask for: those of its node's slice but the last. */
  predicate MayAsk(c: Config, w: nat, slot: nat)
    requires WellFormed(c) && w < c.workers
  {
    var n := BufferLength(c);
    SliceFrom(c.prepared, n, c.nodeIds[w]) <= slot < SliceTo(c.prepared, n, c.nodeIds[w])
  }

  predicate MayAskAll(c: Config, w: nat, row: seq<nat>)
    requires WellFormed(c) && w < c.workers
  {
    forall i :: 0 <= i < |row| ==> MayAsk(c, w, row[i])
  }

  /** Distance of a slot from the beginning of the worker's slice. */
  function Distance(c: Config, w: nat, slot: nat): (d: nat)
    requires WellFormed(c) && w < c.workers && MayAsk(c, w, slot)
  {
    slot - SliceFrom(c.prepared, BufferLength(c), c.nodeIds[w])
  }

  function Distances(c: Config, w: nat, row: seq<nat>): seq<nat>
    requires WellFormed(c) && w < c.workers && MayAskAll(c, w, row)
  {
    seq(|row|, i requires 0 <= i < |row| => Distance(c, w, row[i]))
  }

  /** And so is any choice of slots. */
  lemma AnyResponses(c: Config, slots: seq<seq<nat>>) returns (draws: seq<seq<nat>>)
    requires WellFormed(c) && Table(c, slots)
    requires forall w :: 0 <= w < c.workers ==> MayAskAll(c, w, slots[w])
    ensures Table(c, draws) && WellFormed(c.(rand := draws))
    ensures forall w, i :: 0 <= w < c.workers && 0 <= i < c.requests ==>
              ResponseId(c.(rand := draws), w, i) == slots[w][i]
  {
    hide MayAskAll, Distance, ResponseId, BufferLength;
    draws := seq(c.workers, w requires 0 <= w < c.workers => Distances(c, w, slots[w]));
    AnyDraws(c, draws);
    forall w, i | 0 <= w < c.workers && 0 <= i < c.requests
      ensures ResponseId(c.(rand := draws), w, i) == slots[w][i]
    {
      AskedFor(c, draws, w, i, slots[w]);
    }
  }

  lemma AskedFor(c: Config, draws: seq<seq<nat>>, w: nat, i: nat, row: seq<nat>)
    requires WellFormed(c) && WellFormed(c.(rand := draws)) && w < c.workers && i < c.requests == |row|
    requires MayAskAll(c, w, row) && draws[w] == Distances(c, w, row)
    ensures ResponseId(c.(rand := draws), w, i) == row[i]
  {
    hide SliceFrom, SliceTo;
    assert BufferLength(c.(rand := draws)) == BufferLength(c);
    assert MayAsk(c, w, row[i]);
    assert draws[w][i] == Distance(c, w, row[i]);
  }

  /** The configuration in which worker w draws `number` for its i-th request. */
  function Redrawn(c: Config, w: nat, i: nat, number: nat): (c': Config)
    requires WellFormed(c) && w < c.workers && i < c.requests
    ensures WellFormed(c')
  {
    var row: seq<nat> := c.rand[w][i := number];
    var c' := c.(rand := c.rand[w := row]);
    AnyDraws(c, c'.rand);
    c'
  }

  /** Number of slots worker w may ask for. */
  function Choices(c: Config, w: nat): nat
    requires WellFormed(c) && w < c.workers
  {
    var n := BufferLength(c);
    SliceUsable(c.prepared, n, c.nodeIds[w]);
    SliceTo(c.prepared, n, c.nodeIds[w]) - SliceFrom(c.prepared, n, c.nodeIds[w])
  }

  lemma RedrawnIs(c: Config, w: nat, i: nat, number: nat)
    requires WellFormed(c) && w < c.workers && i < c.requests
    ensures Choices(c, w) > 0
    ensures Target(Redrawn(c, w, i, number), w, i) == number % c.receivers
    ensures ResponseId(Redrawn(c, w, i, number), w, i)
            == number % Choices(c, w) + SliceFrom(c.prepared, BufferLength(c), c.nodeIds[w])
  {
    assert BufferLength(Redrawn(c, w, i, number)) == BufferLength(c);
    SliceUsable(c.prepared, BufferLength(c), c.nodeIds[w]);
  }

  /** Drawing `number`, the request goes to receiver `pick` and asks for `slot`. */
  predicate Leads(c: Config, w: nat, i: nat, number: nat, pick: nat, slot: nat)
    requires WellFormed(c) && w < c.workers && i < c.requests
  {
    Target(Redrawn(c, w, i, number), w, i) == pick && ResponseId(Redrawn(c, w, i, number), w, i) == slot
  }

  lemma LeadsIff(c: Config, w: nat, i: nat, number: nat, pick: nat, slot: nat)
    requires WellFormed(c) && w < c.workers && i < c.requests && MayAsk(c, w, slot)
    ensures Choices(c, w) > Distance(c, w, slot)
    ensures Leads(c, w, i, number, pick, slot) <==>
              number % c.receivers == pick && number % Choices(c, w) == Distance(c, w, slot)
  {
    hide Target, ResponseId, Redrawn, MaxOf, SliceFrom, SliceTo;
    RedrawnIs(c, w, i, number);
  }

  /**
   Which pairs of a receiver and a slot a request can get: as one number is reduced twice, the receiver's number and
   the slot's distance from the beginning of the slice must differ by a multiple of the greatest common divisor.
   */
  lemma PairDrawnIff(c: Config, w: nat, i: nat, pick: nat, slot: nat)
    requires WellFormed(c) && w < c.workers && i < c.requests && pick < c.receivers && MayAsk(c, w, slot)
    ensures Choices(c, w) > 0
    ensures (exists number: nat :: number < c.receivers * Choices(c, w) && Leads(c, w, i, number, pick, slot))
            <==> (pick - Distance(c, w, slot)) % Gcd(c.receivers, Choices(c, w)) == 0
  {
    hide Choices, Distance, Leads, MayAsk, Gcd;
    var a, b, d := c.receivers, Choices(c, w), Distance(c, w, slot);
    LeadsIff(c, w, i, 0, pick, slot);
    if number: nat :| number < a * b && Leads(c, w, i, number, pick, slot) {
      LeadsIff(c, w, i, number, pick, slot);
    }
    RemaindersMeetIff(a, b, pick, d);
    if number: nat :| number < a * b && number % a == pick && number % b == d {
      LeadsIff(c, w, i, number, pick, slot);
    }
  }

  /* ---- where the requests of a run go ---- */

  lemma {:induction false} FirstRequestsAt(c: Config, w: nat, n: nat, k: nat)
    requires WellFormed(c) && w < c.workers && k < n <= c.requests
    ensures |FirstRequests(c, w, n)| == n && FirstRequests(c, w, n)[k] == ForwardedPacket(c, w, k)
  {
    FirstRequestsLength(c, w, n - 1);
    if k < n - 1 {
      FirstRequestsAt(c, w, n - 1, k);
    }
  }

  lemma LogAt(c: Config, tr: seq<State>, steps: seq<Step>, n: nat, w: nat, k: nat)
    requires WellFormed(c) && EnoughCredit(c) && w < c.workers && IsRun(c, tr, steps) && n <= |steps|
    requires k < |ForwardLog(c, tr, steps, n, w)|
    ensures k < c.requests && ForwardLog(c, tr, steps, n, w)[k] == ForwardedPacket(c, w, k)
  {
    hide IsRun, ForwardLog, Sent, FirstRequests, ForwardedPacket, Shape, BufferLength, EnoughCredit;
    RunLength(c, tr, steps);
    ForwardedExactlyOnce(c, tr, steps, n, w);
    FirstRequestsLength(c, w, Sent(c, tr[n], w));
    FirstRequestsAt(c, w, Sent(c, tr[n], w), k);
  }

  /**
   For any choice of receivers there are draws with which, in every run, the dispatcher posts the k-th request of each
   worker to the receiver chosen for it, into that receiver's request memory, asking for a slot of the worker's slice.
   */
  lemma RequestsGoWherePicked(c: Config, picks: seq<seq<nat>>, tr: seq<State>, steps: seq<Step>, n: nat, w: nat, k: nat)
    requires WellFormed(c) && EnoughCredit(c) && Table(c, picks) && w < c.workers
    requires forall u, i :: 0 <= u < c.workers && 0 <= i < c.requests ==> picks[u][i] < c.receivers
    requires WellFormed(c.(rand := picks)) && IsRun(c.(rand := picks), tr, steps) && n <= |steps|
    requires k < |ForwardLog(c.(rand := picks), tr, steps, n, w)|
    ensures k < c.requests
    ensures var p := ForwardLog(c.(rand := picks), tr, steps, n, w)[k];
            && p.to == picks[w][k] && p.body.origin == w && p.body.msgId == k && p.body.kind == ExpMsg
            && c.reqBases[p.to] <= p.addr
            && p.addr + MESSAGE_SIZE <= c.reqBases[p.to] + BufferLength(c) * MESSAGE_SIZE
            && MayAsk(c, w, p.body.id)
  {
    hide IsRun, ForwardLog, ForwardedPacket, Target, MayAsk, BufferLength, EnoughCredit;
    var c' := c.(rand := picks);
    AnyDraws(c, picks);
    AnyTargets(c, picks);
    LogAt(c', tr, steps, n, w, k);
    RequestIs(c', w, k);
    SameLength(c, picks, w);
  }

  /** The draws have no part in how memory is divided. */
  lemma SameLength(c: Config, t: seq<seq<nat>>, w: nat)
    requires WellFormed(c) && WellFormed(c.(rand := t)) && w < c.workers
    ensures BufferLength(c.(rand := t)) == BufferLength(c)
    ensures forall slot: nat :: MayAsk(c.(rand := t), w, slot) <==> MayAsk(c, w, slot)
  {
  }

  /** Where the k-th request of a worker goes and what it asks for, without the formulas. */
  lemma RequestIs(c: Config, w: nat, k: nat)
    requires WellFormed(c) && w < c.workers && k < c.requests
    ensures var p := ForwardedPacket(c, w, k);
            && p.to == Target(c, w, k) && p.to < c.receivers
            && p.body.origin == w && p.body.msgId == k && p.body.kind == ExpMsg && MayAsk(c, w, p.body.id)
            && c.reqBases[p.to] <= p.addr
            && p.addr + MESSAGE_SIZE <= c.reqBases[p.to] + BufferLength(c) * MESSAGE_SIZE
  {
    ResponseIdInSlice(c, w, k);
    NodeInRange(c, w);
    SlotInside(c.reqBases[Target(c, w, k)], MESSAGE_SIZE, c.nodeIds[w], BufferLength(c));
  }
}
