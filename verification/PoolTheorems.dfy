/**
 What the pool guarantees in every reachable state, for any number of threads and any
 interleaving.
 */
module PoolTheorems {
  import opened Basics
  import opened PoolModel
  import opened PoolProtocol
  import opened PoolSteps
  import opened PoolInvariant
  import opened PoolPlaces
  import opened PoolInventory
  import opened PoolOwnership
  import opened PoolWakeup
  import opened PoolWaiters
  import opened PoolStats

  ghost predicate AllCounted(s: State) {
    forall t :: 0 <= t < |s.ths| ==> Counted(s.sh, s.ths[t])
  }

  ghost predicate Inv(s: State) {
    Protocol(s) && Owned(s) && NoLostWakeup(s) && SweptOut(s) && Drained(s) && AllAttended(s) && AllCounted(s)
  }

  lemma InvInit(s: State)
    requires Init(s)
    ensures Inv(s)
  {
    hide Protocol, Owned;
    ProtocolInit(s);
    OwnedInit(s);
  }

  lemma CountedMove(s: State, t: nat, a: Action, s2: State, q: nat)
    requires Moves(s, t, a, s2) && Protocol(s) && Protocol(s2)
    requires Tagged(s.sh, s.ths[t]) && AllCounted(s) && q < |s2.ths|
    ensures Counted(s2.sh, s2.ths[q])
  {
    hide Step, QueueOk, Ok, Contracted, CallHasThread, Tagged;
    var pc, pc2 := s.ths[t], s2.ths[t];
    assert Ready(t, s.sh, pc) && Ready(q, s.sh, s.ths[q]) && Ready(t, s2.sh, pc2);
    if q == t {
      StepCounted(t, a, s.sh, pc, s2.sh, pc2);
    } else if s.ths[q].Counting? {
      forall i | i in s.ths[q].seen ensures Usable(s2.sh, i) {
        UsableKept(t, a, s.sh, pc, s2.sh, pc2, i);
      }
    }
  }

  lemma InvMove(s: State, t: nat, a: Action, s2: State)
    requires Inv(s) && Moves(s, t, a, s2)
    ensures Inv(s2)
  {
    hide Protocol, Owned, Post, Guarantee, Tagged, Moves, Counted, Demand, Clears, Drains, Attended, BitsInRange;
    MoveThread(s, t, a, s2);
    MovePost(s, t, a, s2);
    PostGuarantee(s, t, s2);
    ProtocolMove(s, t, a, s2);
    OwnedMove(s, t, a, s2);
    OwnedTags(s, t);
    TaggedInRange(s.sh, s.ths[t]);
    if !s2.sh.closed {
      forall i | i in s2.sh.bits && Demand(s2, Word(i)) ensures Awaited(s2, Word(i)) {
        WakeupMove(s, t, a, s2, i);
      }
    } else {
      forall i | i in s2.sh.bits ensures exists q :: 0 <= q < |s2.ths| && Clears(s2.ths[q], i) {
        ClosureMove(s, t, a, s2, i);
      }
      if s2.sh.queue != [] {
        DrainMove(s, t, a, s2);
      }
    }
    forall n | 0 <= n < |s2.sh.nodes| ensures Attended(s2, n) {
      AttendedMove(s, t, a, s2, n);
    }
    forall q | 0 <= q < |s2.ths| ensures Counted(s2.sh, s2.ths[q]) {
      CountedMove(s, t, a, s2, q);
    }
  }

  lemma MoveThread(s: State, t: nat, a: Action, s2: State)
    requires Moves(s, t, a, s2)
    ensures t < |s.ths| == |s2.ths|
  {
  }

  lemma PostGuarantee(s: State, t: nat, s2: State)
    requires t < |s.ths| == |s2.ths| && Post(t, s.sh, s.ths[t], s2.sh, s2.ths[t])
    ensures Guarantee(t, s.sh, s2.sh)
  {
  }

  lemma OwnedTags(s: State, t: nat)
    requires Owned(s) && t < |s.ths|
    ensures Tagged(s.sh, s.ths[t])
  {
    hide Tagged, Placed;
    PlacesTag(s, t);
  }

  lemma InvTick(s: State, s2: State)
    requires Inv(s) && s2.sh.now >= s.sh.now && s2 == s.(sh := s.sh.(now := s2.sh.now))
    ensures Inv(s2)
  {
    assert Next(s, s2);
    assert Protocol(s2) by { ProtocolNext(s, s2); }
    assert Owned(s2) by { OwnedNext(s, s2); }
    hide Protocol, Owned, Next;
    forall n | 0 <= n < |s2.sh.nodes| ensures Attended(s2, n) {
      assert Attended(s, n);
    }
    forall q | 0 <= q < |s2.ths| ensures Counted(s2.sh, s2.ths[q]) {
      assert Counted(s.sh, s.ths[q]);
    }
    forall i | i in s2.sh.bits && Demand(s2, Word(i)) && !s2.sh.closed ensures Awaited(s2, Word(i)) {
      assert Demand(s, Word(i)) && Awaited(s, Word(i));
    }
  }

  lemma InvNext(s: State, s2: State)
    requires Inv(s) && Next(s, s2)
    ensures Inv(s2)
  {
    hide Inv, Moves;
    if t: nat, a: Action :| Moves(s, t, a, s2) {
      InvMove(s, t, a, s2);
    } else {
      InvTick(s, s2);
    }
  }

  /** The invariant holds in every state of every run. */
  lemma {:induction false} Invariant(r: seq<State>, k: nat)
    requires Run(r) && k < |r|
    ensures Inv(r[k])
  {
    hide Inv, Init, Next;
    if k == 0 {
      InvInit(r[0]);
    } else {
      Invariant(r, k - 1);
      assert Next(r[k - 1], r[k - 1 + 1]);
      InvNext(r[k - 1], r[k]);
    }
  }

  // ------------------------------------------------------------------ ownership

  /** In how many places slot `i` stands. */
  ghost function PlaceCount(s: State, i: nat): nat {
    multiset(s.sh.vacant)[i] + multiset(s.sh.quarantined)[i] + s.sh.filled[i] + s.sh.blank[i]
    + One(i in s.sh.bits) + SweptCount(s.ths, i)
    + s.sh.borrowed[i] + NodeCount(s.sh.nodes, i) + HeldCount(s.ths, i)
  }

  /** Ownership is a partition: every index of the arena stands in exactly one place. */
  lemma Partition(r: seq<State>, k: nat, i: nat)
    requires Run(r) && k < |r|
    ensures PlaceCount(r[k], i) == One(i < |r[k].sh.states|)
  {
    Invariant(r, k);
    hide Run, Protocol, Inventory, HeldCount, NodeCount, SweptCount;
    assert Placed(r[k], i);
  }

  /** The slots in state `st`. */
  ghost function SlotsIn(states: seq<SlotState>, st: SlotState): (r: set<nat>)
    ensures forall i: nat :: i in r <==> i < |states| && states[i] == st
  {
    if states == [] then {}
    else
      var k := |states| - 1;
      SlotsIn(states[..k], st) + (if states[k] == st then {k} else {})
  }

  lemma CountAsSet(m: multiset<nat>, s: set<nat>)
    requires forall i: nat :: m[i] == One(i in s)
    ensures |m| == |s|
  {
    assert m == multiset(s);
  }

  lemma LastSlot(states: seq<SlotState>, st: SlotState)
    requires states != []
    ensures |SlotsIn(states, st)| == |SlotsIn(states[..|states| - 1], st)| + One(states[|states| - 1] == st)
  {
    assert |states| - 1 !in SlotsIn(states[..|states| - 1], st);
  }

  lemma {:induction false} TagSizes(states: seq<SlotState>)
    ensures |SlotsIn(states, Vacant)| + |SlotsIn(states, Quarantined)| + |SlotsIn(states, Reserved)|
            + |SlotsIn(states, Idle)| + |SlotsIn(states, Borrowed)| == |states|
  {
    if states != [] {
      TagSizes(states[..|states| - 1]);
      LastSlot(states, Vacant);
      LastSlot(states, Quarantined);
      LastSlot(states, Reserved);
      LastSlot(states, Idle);
      LastSlot(states, Borrowed);
    }
  }

  /** `usable_size_` is the number of slots that are idle or borrowed. */
  lemma UsableIsSize(s: State)
    requires Owned(s)
    ensures |SlotsIn(s.sh.states, Idle)| + |SlotsIn(s.sh.states, Borrowed)| == s.sh.usable
  {
    hide HeldCount, SweptCount, NodeCount;
    var sh := s.sh;
    forall i: nat
      ensures multiset(sh.vacant)[i] == One(i in SlotsIn(sh.states, Vacant))
      ensures multiset(sh.quarantined)[i] == One(i in SlotsIn(sh.states, Quarantined))
      ensures (sh.filled + sh.blank)[i] == One(i in SlotsIn(sh.states, Reserved))
    {
      assert Placed(s, i);
    }
    CountAsSet(multiset(sh.vacant), SlotsIn(sh.states, Vacant));
    CountAsSet(multiset(sh.quarantined), SlotsIn(sh.states, Quarantined));
    CountAsSet(sh.filled + sh.blank, SlotsIn(sh.states, Reserved));
    TagSizes(sh.states);
  }

  /** Whatever interleaves with it, a finished idle count is at most the usable size. */
  lemma IdleCountBounded(r: seq<State>, k: nat, t: nat)
    requires Run(r) && k < |r| && t < |r[k].ths| && r[k].ths[t].Counting?
    ensures r[k].ths[t].count <= r[k].sh.usable
  {
    Invariant(r, k);
    hide Run, Protocol, Inventory, NoLostWakeup, SweptOut, Drained, AllAttended;
    var s := r[k];
    assert Counted(s.sh, s.ths[t]);
    UsableIsSize(s);
    var used := SlotsIn(s.sh.states, Idle) + SlotsIn(s.sh.states, Borrowed);
    assert forall i :: i in s.ths[t].seen ==> Usable(s.sh, i);
    SubsetSize(s.ths[t].seen, used);
    assert |used| == |SlotsIn(s.sh.states, Idle)| + |SlotsIn(s.sh.states, Borrowed)|;
  }

  /** The counters agree with the inventory, and the gate with the queue whenever the mutex is free. */
  lemma Counters(r: seq<State>, k: nat)
    requires Run(r) && k < |r|
    ensures Counts(r[k].sh) && r[k].sh.usable >= 0 && r[k].sh.reserved >= 0
    ensures !(0 <= r[k].sh.owner < |r[k].ths| && Owes(r[k].ths[r[k].sh.owner])) ==> r[k].sh.gate == |r[k].sh.queue|
  {
    Invariant(r, k);
    hide Run, Lifetimes, Places, QueueOk, Ready;
    UsableIsSize(r[k]);
  }

  // ------------------------------------------------------------------ object lifetime

  /** The number of objects in slot `i` when no reservation is involved. */
  function Occupants(st: SlotState): nat {
    if st == Idle || st == Borrowed || st == Quarantined then 1 else 0
  }

  /** Vacant slots hold no object; idle, borrowed and quarantined slots hold one; a reserved
      slot holds one exactly when its token says so. Each object is destroyed once. */
  lemma ObjectLifetime(r: seq<State>, k: nat, i: nat)
    requires Run(r) && k < |r| && i < |r[k].sh.states|
    ensures i < |r[k].sh.built| && i < |r[k].sh.torn|
    ensures r[k].sh.built[i] == r[k].sh.torn[i] + Occupants(r[k].sh.states[i]) + r[k].sh.filled[i]
  {
    Invariant(r, k);
    hide Run, Protocol, HeldCount, NodeCount, SweptCount;
    assert Placed(r[k], i) && Inventory(r[k].sh);
  }

  /** What the destructor's assertions demand: no call, no token, no unfinished operation. */
  ghost predicate Destructible(s: State) {
    && s.sh.closed && s.sh.reserved == 0 && s.sh.borrowed == multiset{}
    && (forall t :: 0 <= t < |s.ths| ==> s.ths[t] == Outside)
    && (forall n :: 0 <= n < |s.sh.nodes| ==> s.sh.nodes[n].taken)
  }

  lemma {:induction false} NothingHeld(nodes: seq<Node>, ths: seq<Pc>, i: nat)
    requires forall t :: 0 <= t < |ths| ==> ths[t] == Outside
    requires forall n :: 0 <= n < |nodes| ==> nodes[n].taken
    ensures NodeCount(nodes, i) == 0 && HeldCount(ths, i) == 0
    decreases |nodes| + |ths|
  {
    if nodes != [] {
      NothingHeld(nodes[..|nodes| - 1], ths, i);
    } else if ths != [] {
      NothingHeld(nodes, ths[..|ths| - 1], i);
    }
  }

  /** The destructor finds no borrowed slot, and destroys exactly the objects that are alive. */
  lemma DestructorBalances(r: seq<State>, k: nat, i: nat)
    requires Run(r) && k < |r| && Destructible(r[k]) && i < |r[k].sh.states|
    ensures i < |r[k].sh.built| && i < |r[k].sh.torn|
    ensures r[k].sh.states[i] != Borrowed
    ensures r[k].sh.built[i] == r[k].sh.torn[i] + One(r[k].sh.states[i] == Idle || r[k].sh.states[i] == Quarantined)
  {
    ObjectLifetime(r, k, i);
    Invariant(r, k);
    NothingHeld(r[k].sh.nodes, r[k].ths, i);
    hide Run, Protocol, HeldCount, NodeCount, SweptCount;
    assert Placed(r[k], i) && Counts(r[k].sh);
    assert r[k].sh.filled == multiset{};
  }

  /** The destructor's loop over the slots. */
  method DestroyObjects(states: seq<SlotState>, torn: array<nat>)
    requires torn.Length == |states|
    modifies torn
    ensures forall i :: 0 <= i < |states| ==>
              torn[i] == old(torn[i]) + One(states[i] == Idle || states[i] == Quarantined)
  {
    for i := 0 to |states|
      invariant forall j :: 0 <= j < i ==> torn[j] == old(torn[j]) + One(states[j] == Idle || states[j] == Quarantined)
      invariant forall j :: i <= j < |states| ==> torn[j] == old(torn[j])
    {
      if states[i] == Idle || states[i] == Quarantined {
        torn[i] := torn[i] + 1;
      }
    }
  }

  // ------------------------------------------------------------------ waiting and shutdown

  /** No call is in flight: threads are outside the pool, or asleep and not notified. */
  ghost predicate AtRest(s: State) {
    forall t :: 0 <= t < |s.ths| ==>
      || s.ths[t] == Outside
      || (s.ths[t].Sleeping? && s.ths[t].atSleep.Asleep? && s.ths[t].atSleep.node < |s.sh.nodes|
          && !s.sh.nodes[s.ths[t].atSleep.node].notified)
  }

  /** While the pool is open, a queued waiter and an idle slot imply a thread that has yet to
      recheck the gate or to scan that slot's word for the waiters. */
  lemma WakeupPending(r: seq<State>, k: nat, i: nat)
    requires Run(r) && k < |r| && !r[k].sh.closed && r[k].sh.queue != [] && i in r[k].sh.bits
    ensures Awaited(r[k], Word(i))
  {
    Invariant(r, k);
    hide Run, Protocol, Owned, SweptOut, Drained, AllAttended, AllCounted, Awaited;
    assert Demand(r[k], Word(i));
  }

  /** A thread outside the pool, or asleep, serves, sweeps, drains and attends nothing. */
  lemma RestIsIdle(s: State)
    requires AtRest(s)
    ensures forall w: nat :: !Awaited(s, w)
    ensures forall t, i: nat :: 0 <= t < |s.ths| ==> !Clears(s.ths[t], i)
    ensures forall t :: 0 <= t < |s.ths| ==> !Drains(s.ths[t])
    ensures forall t, n: nat :: 0 <= t < |s.ths| && n < |s.sh.nodes| ==> !Attends(t, s.ths[t], s.sh.nodes[n], n)
  {
  }

  /** Once nothing is in flight, an open pool with a queued waiter has no idle slot. */
  lemma WakeupAtRest(r: seq<State>, k: nat)
    requires Run(r) && k < |r| && AtRest(r[k]) && !r[k].sh.closed && r[k].sh.queue != []
    ensures r[k].sh.bits == {}
  {
    Invariant(r, k);
    RestIsIdle(r[k]);
    hide Run, AtRest, Protocol, Owned, SweptOut, Drained, AllAttended, AllCounted, Awaited;
    forall i ensures i !in r[k].sh.bits {
      assert i in r[k].sh.bits ==> Demand(r[k], Word(i));
    }
  }

  /** Once nothing is in flight, a closed pool has no idle bit and no queued waiter. */
  lemma ShutdownComplete(r: seq<State>, k: nat)
    requires Run(r) && k < |r| && AtRest(r[k]) && r[k].sh.closed
    ensures r[k].sh.bits == {} && r[k].sh.queue == []
  {
    Invariant(r, k);
    RestIsIdle(r[k]);
    hide Run, AtRest, Protocol, Owned, NoLostWakeup, AllAttended, AllCounted, Clears, Drains;
  }

  lemma {:induction false} NothingSwept(ths: seq<Pc>, i: nat)
    requires forall t :: 0 <= t < |ths| ==> !Swept(ths[t], i)
    ensures SweptCount(ths, i) == 0
  {
    if ths != [] {
      NothingSwept(ths[..|ths| - 1], i);
    }
  }

  /** Nor does any slot stay idle: whatever is not out with a caller, an assigned waiter or a
      reservation has been quarantined, or was vacant. */
  lemma NoIdleAfterShutdown(r: seq<State>, k: nat, i: nat)
    requires Run(r) && k < |r| && AtRest(r[k]) && r[k].sh.closed && i < |r[k].sh.states|
    ensures match r[k].sh.states[i]
            case Vacant => i in r[k].sh.vacant
            case Quarantined => i in r[k].sh.quarantined
            case Reserved => i in r[k].sh.filled || i in r[k].sh.blank
            case Borrowed => r[k].sh.borrowed[i] + NodeCount(r[k].sh.nodes, i) == 1
            case Idle => false
  {
    ShutdownComplete(r, k);
    Invariant(r, k);
    NothingSwept(r[k].ths, i);
    NobodyHolds(r[k].ths, i);
    hide Run, Protocol, HeldCount, NodeCount, SweptCount;
    assert Placed(r[k], i);
  }

  lemma {:induction false} NobodyHolds(ths: seq<Pc>, i: nat)
    requires forall t :: 0 <= t < |ths| ==> ths[t] == Outside || ths[t].Sleeping?
    ensures HeldCount(ths, i) == 0
  {
    if ths != [] {
      NobodyHolds(ths[..|ths| - 1], i);
    }
  }

  lemma NodeAtRest(s: State, n: nat)
    requires Inv(s) && AtRest(s) && n < |s.sh.nodes|
    ensures !Needs(s.sh, n) && NodeOk(s.sh, n)
  {
    RestIsIdle(s);
    hide Owned, NoLostWakeup, SweptOut, Drained, AllCounted, Attends, Needs, NodeOk, AtRest;
    assert Attended(s, n);
  }

  /** Once nothing is in flight, a sleeping thread is still queued, and an unfinished
      asynchronous call is queued, posted, or left to the shutdown of its context. */
  lemma CompletionNotLost(r: seq<State>, k: nat)
    requires Run(r) && k < |r| && AtRest(r[k])
    ensures forall t :: 0 <= t < |r[k].ths| && r[k].ths[t].Sleeping? ==> r[k].ths[t].atSleep.node in r[k].sh.queue
    ensures forall n, c ::
              0 <= n < |r[k].sh.nodes| && r[k].sh.nodes[n].kind == Async(c) && r[k].sh.nodes[n].registered ==>
                n in r[k].sh.queue || r[k].sh.nodes[n].posted || c in r[k].sh.stopping
  {
    Invariant(r, k);
    hide Run, Owned, NoLostWakeup, SweptOut, Drained, AllAttended, AllCounted;
    var s := r[k];
    forall n, c | 0 <= n < |s.sh.nodes| && s.sh.nodes[n].kind == Async(c) && s.sh.nodes[n].registered
      ensures n in s.sh.queue || s.sh.nodes[n].posted || c in s.sh.stopping
    {
      NodeAtRest(s, n);
    }
    forall t | 0 <= t < |s.ths| && s.ths[t].Sleeping? ensures s.ths[t].atSleep.node in s.sh.queue {
      assert Ready(t, s.sh, s.ths[t]);
      NodeAtRest(s, s.ths[t].atSleep.node);
    }
  }
}
