/**
 The reusable spin barrier as interleaved steps of its threads. One step is one access to an atomic,
 or the call of the finalizer. The round number has 8 bits and wraps.
 */
module Barrier {
  import opened Sums

  datatype Pc =
    | Outside
    | Loaded(saved: nat)     // has read the round, about to decrement the counter
    | Spinning(saved: nat)   // waits for the round to change
    | Resetting              // arrived last, about to refill the counter
    | Finalizing             // about to call the finalizer
    | Bumping                // about to increment the round

  /** Besides the two atomics: how often each thread has arrived and returned, and how often the finalizer ran
      and the round was incremented. The last four are history; no step reads them to decide anything. */
  datatype State = State(
    cntr: int, round: nat, threads: seq<Pc>,
    arrived: seq<nat>, returned: seq<nat>, finals: nat, bumps: nat)

  const ROUNDS: nat := 256

  function Init(n: nat): State {
    State(n, 0, seq(n, _ => Outside), seq(n, _ => 0), seq(n, _ => 0), 0, 0)
  }

  predicate Shape(n: nat, s: State) {
    |s.threads| == |s.arrived| == |s.returned| == n
  }

  /** Thread t takes its next step; outside, it calls wait. */
  function Step(n: nat, s: State, t: nat): State
    requires Shape(n, s) && t < n
  {
    match s.threads[t]
    case Outside => s.(threads := s.threads[t := Loaded(s.round)])
    case Loaded(saved) =>
      s.(cntr := s.cntr - 1, arrived := s.arrived[t := s.arrived[t] + 1],
         threads := s.threads[t := if s.cntr == 1 then Resetting else Spinning(saved)])
    case Resetting => s.(cntr := n, threads := s.threads[t := Finalizing])
    case Finalizing => s.(finals := s.finals + 1, threads := s.threads[t := Bumping])
    case Bumping =>
      s.(round := (s.round + 1) % ROUNDS, bumps := s.bumps + 1,
         returned := s.returned[t := s.returned[t] + 1], threads := s.threads[t := Outside])
    case Spinning(saved) =>
      if s.round == saved then s
      else s.(returned := s.returned[t := s.returned[t] + 1], threads := s.threads[t := Outside])
  }

  ghost predicate IsRun(n: nat, tr: seq<State>, who: seq<nat>) {
    && |tr| == |who| + 1 && tr[0] == Init(n)
    && forall k :: 0 <= k < |who| ==> Shape(n, tr[k]) && who[k] < n && tr[k + 1] == Step(n, tr[k], who[k])
  }

  /* ---- the invariant ---- */

  predicate Leading(pc: Pc) { pc.Resetting? || pc.Finalizing? || pc.Bumping? }

  /** Where a thread is, relative to the g rounds completed so far. */
  predicate ThreadOk(pc: Pc, arrived: nat, returned: nat, g: nat) {
    match pc
    case Outside => arrived == g && returned == g
    case Loaded(saved) => arrived == g && returned == g && saved == g % ROUNDS
    case Spinning(saved) =>
      || (arrived == g + 1 && returned == g && saved == g % ROUNDS)
      || (arrived == g && returned + 1 == g && saved == (g - 1) % ROUNDS)
    case _ => arrived == g + 1 && returned == g
  }

  ghost function Arrivals(s: State): seq<int> {
    seq(|s.arrived|, t requires 0 <= t < |s.arrived| => if s.arrived[t] == s.bumps + 1 then 1 else 0)
  }

  /** `lead` is the thread that arrived last and has not returned yet, or -1. */
  ghost predicate Inv(n: nat, s: State, lead: int) {
    && Shape(n, s)
    && -1 <= lead < n
    && s.round == s.bumps % ROUNDS
    && (forall t :: 0 <= t < n ==> ThreadOk(s.threads[t], s.arrived[t], s.returned[t], s.bumps))
    && (forall t :: 0 <= t < n ==> (Leading(s.threads[t]) <==> t == lead))
    && (lead == -1 ==> s.cntr == n - Total(Arrivals(s)) && s.cntr >= 1 && s.finals == s.bumps)
    && (lead >= 0 ==>
          && (forall t :: 0 <= t < n ==> s.arrived[t] == s.bumps + 1)
          && s.cntr == (if s.threads[lead].Resetting? then 0 else n)
          && s.finals == s.bumps + (if s.threads[lead].Bumping? then 1 else 0))
  }

  lemma InitOk(n: nat)
    requires n > 0
    ensures Inv(n, Init(n), -1)
  {
    TotalZero(Arrivals(Init(n)));
  }

  /** The thread whose decrement yields one is the last to arrive. */
  lemma ArriveKeeps(n: nat, s: State, t: nat) returns (lead: int)
    requires Inv(n, s, -1) && t < n && s.threads[t].Loaded?
    ensures Inv(n, Step(n, s, t), lead)
  {
    var s' := Step(n, s, t);
    TotalChange(Arrivals(s), Arrivals(s'), t);
    TotalFull(Arrivals(s'));
    TotalBounds(Arrivals(s'), 0, 1);
    forall u | 0 <= u < n && s.cntr == 1 ensures s'.arrived[u] == s.bumps + 1 {
      assert Arrivals(s')[u] == 1;
    }
    lead := if s.cntr == 1 then t else -1;
  }

  /** Incrementing the round releases everybody who waits in it, and nobody else. */
  lemma BumpKeeps(n: nat, s: State, t: nat)
    requires Inv(n, s, t) && t < n && s.threads[t].Bumping?
    ensures Inv(n, Step(n, s, t), -1)
  {
    TotalZero(Arrivals(Step(n, s, t)));
  }

  lemma StepKeeps(n: nat, s: State, lead: int, t: nat) returns (lead': int)
    requires Inv(n, s, lead) && t < n
    ensures Inv(n, Step(n, s, t), lead')
  {
    var s' := Step(n, s, t);
    match s.threads[t]
    case Loaded(_) => lead' := ArriveKeeps(n, s, t);
    case Bumping => BumpKeeps(n, s, t); lead' := -1;
    case _ =>
      assert Arrivals(s') == Arrivals(s);
      lead' := lead;
  }

  lemma {:induction false} RunKeeps(n: nat, tr: seq<State>, who: seq<nat>, k: nat) returns (lead: int)
    requires n > 0 && IsRun(n, tr, who) && k <= |who|
    ensures Inv(n, tr[k], lead)
  {
    hide Inv;
    if k == 0 {
      InitOk(n);
      lead := -1;
    } else {
      var before := RunKeeps(n, tr, who, k - 1);
      lead := StepKeeps(n, tr[k - 1], before, who[k - 1]);
    }
  }

  /* ---- what it means ---- */

  /** Nobody returns from a wait before everybody has arrived at theirs, however many rounds have passed. */
  lemma ReturnsAfterArrivals(n: nat, tr: seq<State>, who: seq<nat>, k: nat, t: nat, u: nat)
    requires n > 0 && IsRun(n, tr, who) && k <= |who| && t < n && u < n
    ensures Shape(n, tr[k]) && tr[k].returned[t] <= tr[k].arrived[u]
  {
    var lead := RunKeeps(n, tr, who, k);
    var s := tr[k];
    assert ThreadOk(s.threads[t], s.arrived[t], s.returned[t], s.bumps);
    assert ThreadOk(s.threads[u], s.arrived[u], s.returned[u], s.bumps);
  }

  /** The 8-bit round never misleads a spinner: it sees a change exactly if its own round is over, which is at most
      one round ago, so wrapping does no harm. */
  lemma RoundTellsTruth(n: nat, tr: seq<State>, who: seq<nat>, k: nat, t: nat)
    requires n > 0 && IsRun(n, tr, who) && k <= |who| && t < n && Shape(n, tr[k]) && tr[k].threads[t].Spinning?
    ensures tr[k].round != tr[k].threads[t].saved <==> tr[k].arrived[t] <= tr[k].bumps
    ensures tr[k].bumps <= tr[k].arrived[t] <= tr[k].bumps + 1
  {
    var lead := RunKeeps(n, tr, who, k);
    var s := tr[k];
    assert ThreadOk(s.threads[t], s.arrived[t], s.returned[t], s.bumps);
  }

  /** The finalizer runs once per round: after all arrivals at it and before any return from it. */
  lemma FinalizerOncePerRound(n: nat, tr: seq<State>, who: seq<nat>, k: nat, t: nat)
    requires n > 0 && IsRun(n, tr, who) && k <= |who| && t < n
    ensures Shape(n, tr[k]) && tr[k].returned[t] <= tr[k].finals <= tr[k].arrived[t]
    ensures (exists u :: 0 <= u < n && tr[k].threads[u].Finalizing?) ==>
              tr[k].returned[t] == tr[k].finals && tr[k].arrived[t] == tr[k].finals + 1
    ensures forall u, v :: 0 <= u < n && 0 <= v < n && tr[k].threads[u].Finalizing? && tr[k].threads[v].Finalizing? ==> u == v
  {
    var lead := RunKeeps(n, tr, who, k);
    var s := tr[k];
    assert ThreadOk(s.threads[t], s.arrived[t], s.returned[t], s.bumps);
    if lead >= 0 {
      assert ThreadOk(s.threads[lead], s.arrived[lead], s.returned[lead], s.bumps);
    }
  }

  /** The counter is positive whenever a thread decrements it. */
  lemma CounterNeverUnderflows(n: nat, tr: seq<State>, who: seq<nat>, k: nat, t: nat)
    requires n > 0 && IsRun(n, tr, who) && k <= |who| && t < n && Shape(n, tr[k]) && tr[k].threads[t].Loaded?
    ensures 1 <= tr[k].cntr <= n
  {
    var lead := RunKeeps(n, tr, who, k);
    var s := tr[k];
    assert ThreadOk(s.threads[t], s.arrived[t], s.returned[t], s.bumps);
    TotalNonNegative(Arrivals(s));
  }

  /** Inside wait and able to do something other than find the round unchanged. */
  predicate CanMove(n: nat, s: State, t: nat)
    requires Shape(n, s) && t < n
  {
    !s.threads[t].Outside? && (s.threads[t].Spinning? ==> s.round != s.threads[t].saved)
  }

  ghost predicate Stuck(n: nat, s: State)
    requires Shape(n, s)
  {
    forall t :: 0 <= t < n ==> !CanMove(n, s, t)
  }

  /** If nobody inside can move, then nobody is inside, or some thread has not called wait for this round yet. */
  lemma StuckOnlyForAbsentees(n: nat, tr: seq<State>, who: seq<nat>, k: nat)
    requires n > 0 && IsRun(n, tr, who) && k <= |who|
    ensures Shape(n, tr[k])
    ensures Stuck(n, tr[k]) ==>
              exists u :: 0 <= u < n && tr[k].threads[u].Outside? && tr[k].arrived[u] == tr[k].bumps
  {
    var lead := RunKeeps(n, tr, who, k);
    var s := tr[k];
    if Stuck(n, s) {
      assert lead == -1 by {
        assert lead >= 0 ==> CanMove(n, s, lead);
      }
      SomebodyMissing(n, s);
    }
  }

  lemma SomebodyMissing(n: nat, s: State)
    requires n > 0 && Inv(n, s, -1) && Stuck(n, s)
    ensures exists u :: 0 <= u < n && s.threads[u].Outside? && s.arrived[u] == s.bumps
  {
    TotalFull(Arrivals(s));
    assert Total(Arrivals(s)) < n;
    var u :| 0 <= u < n && Arrivals(s)[u] != 1;
    assert ThreadOk(s.threads[u], s.arrived[u], s.returned[u], s.bumps);
    assert !CanMove(n, s, u);
  }

  /** A step changes something exactly if it is a call or a move; the only one that does not is a look at the round in
      vain. */
  lemma MoveIff(n: nat, s: State, t: nat)
    requires Shape(n, s) && t < n
    ensures Step(n, s, t) != s <==> s.threads[t].Outside? || CanMove(n, s, t)
  {
    assert Step(n, s, t) == s ==> Step(n, s, t).threads[t] == s.threads[t];
  }

  /* ---- every round gets completed ---- */

  /** Moves a thread has left before it is outside, at most. */
  function Left(pc: Pc): nat {
    match pc
    case Outside => 0
    case Loaded(_) => 4
    case Resetting => 3
    case Finalizing => 2
    case Bumping => 1
    case Spinning(_) => 1
  }

  ghost function LeftSeq(s: State): seq<int> {
    seq(|s.threads|, t requires 0 <= t < |s.threads| => Left(s.threads[t]))
  }

  /** How often thread t has called wait. */
  function Calls(s: State, t: nat): nat
    requires t < |s.threads| && t < |s.returned|
  {
    s.returned[t] + if s.threads[t].Outside? then 0 else 1
  }

  /** A step from outside is a call, and calls are made by nothing else. A move uses up something. */
  lemma MoveCosts(n: nat, s: State, t: nat)
    requires Shape(n, s) && t < n
    ensures Shape(n, Step(n, s, t))
    ensures CanMove(n, s, t) ==> Total(LeftSeq(Step(n, s, t))) < Total(LeftSeq(s))
    ensures forall u :: 0 <= u < n ==>
              Calls(Step(n, s, t), u) == Calls(s, u) + if u == t && s.threads[t].Outside? then 1 else 0
  {
    TotalChange(LeftSeq(s), LeftSeq(Step(n, s, t)), t);
  }

  /** From state k on nobody calls wait and nobody looks at the round in vain. */
  ghost predicate OnlyMoves(n: nat, tr: seq<State>, who: seq<nat>, k: nat)
    requires IsRun(n, tr, who)
  {
    forall j :: k <= j < |who| ==> CanMove(n, tr[j], who[j])
  }

  lemma {:induction false} MovesCost(n: nat, tr: seq<State>, who: seq<nat>, k: nat, j: nat)
    requires IsRun(n, tr, who) && k <= j <= |who| && OnlyMoves(n, tr, who, k) && Shape(n, tr[k])
    ensures Shape(n, tr[j]) && Total(LeftSeq(tr[j])) + (j - k) <= Total(LeftSeq(tr[k]))
    ensures forall u :: 0 <= u < n ==> Calls(tr[j], u) == Calls(tr[k], u)
    decreases j
  {
    hide Step;
    if j > k {
      MovesCost(n, tr, who, k, j - 1);
      MoveCosts(n, tr[j - 1], who[j - 1]);
    }
  }

  lemma LeftBounded(n: nat, s: State)
    requires Shape(n, s)
    ensures 0 <= Total(LeftSeq(s)) <= 4 * n
  {
    TotalBounds(LeftSeq(s), 0, 4);
  }

  /** Where nobody can move, everybody has returned from all rounds completed so far, and somebody is outside. */
  lemma StuckIs(n: nat, s: State, lead: int)
    requires n > 0 && Inv(n, s, lead) && Stuck(n, s)
    ensures forall t :: 0 <= t < n ==> s.returned[t] == s.bumps
    ensures exists u :: 0 <= u < n && s.threads[u].Outside?
  {
    assert lead >= 0 ==> CanMove(n, s, lead);
    forall t | 0 <= t < n ensures s.returned[t] == s.bumps {
      assert ThreadOk(s.threads[t], s.arrived[t], s.returned[t], s.bumps) && !CanMove(n, s, t);
    }
    SomebodyMissing(n, s);
  }

  /**
   Let the threads get on from any state without a new call. That takes at most four moves a thread, and when nobody
   can move, each has returned as often as the one that has called least often has called, no more and no less.
   */
  lemma MovesEnd(n: nat, tr: seq<State>, who: seq<nat>, k: nat)
    requires n > 0 && IsRun(n, tr, who) && k <= |who| && OnlyMoves(n, tr, who, k)
    ensures Shape(n, tr[k]) && Shape(n, tr[|who|])
    ensures |who| - k <= 4 * n
    ensures Stuck(n, tr[|who|]) ==> forall t, u :: 0 <= t < n && 0 <= u < n ==> tr[|who|].returned[t] <= Calls(tr[k], u)
    ensures Stuck(n, tr[|who|]) ==>
              exists u :: 0 <= u < n && forall t :: 0 <= t < n ==> tr[|who|].returned[t] == Calls(tr[k], u)
  {
    var m := |who|;
    var first := RunKeeps(n, tr, who, k);
    var last := RunKeeps(n, tr, who, m);
    MovesCost(n, tr, who, k, m);
    LeftBounded(n, tr[k]);
    LeftBounded(n, tr[m]);
    if Stuck(n, tr[m]) {
      StuckIs(n, tr[m], last);
      var u :| 0 <= u < n && tr[m].threads[u].Outside?;
      assert Calls(tr[m], u) == tr[m].bumps;
    }
  }

  /** So once all threads are inside the same wait, all of them return from it, after at most four moves a thread. */
  lemma AllReturn(n: nat, tr: seq<State>, who: seq<nat>, k: nat, t: nat)
    requires n > 0 && IsRun(n, tr, who) && k <= |who| && OnlyMoves(n, tr, who, k) && t < n
    requires Shape(n, tr[k]) && Shape(n, tr[|who|]) && Stuck(n, tr[|who|])
    requires forall u :: 0 <= u < n ==> !tr[k].threads[u].Outside? && tr[k].returned[u] == tr[k].returned[t]
    ensures tr[|who|].returned[t] == tr[k].returned[t] + 1 && tr[|who|].threads[t].Outside?
    ensures |who| - k <= 4 * n
  {
    MovesEnd(n, tr, who, k);
    var u :| 0 <= u < n && forall v :: 0 <= v < n ==> tr[|who|].returned[v] == Calls(tr[k], u);
    MovesCost(n, tr, who, k, |who|);
    assert Calls(tr[|who|], t) == Calls(tr[k], t);
  }
}
