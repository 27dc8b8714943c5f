/**
 Ownership, counters and lifetimes over whole states: each slot is in exactly one place
 in every reachable state, and no construction or destruction is lost or repeated.
 */
module PoolOwnership {
  import opened Basics
  import opened PoolModel
  import opened PoolProtocol
  import opened PoolSteps
  import opened PoolInvariant
  import opened PoolPlaces
  import opened PoolInventory

  lemma OutsideBalance(t: nat, a: Action, sh: Shared, sh2: Shared, pc2: Pc, i: nat)
    requires OutsideStep(t, a, sh, sh2, pc2) && QueueOk(sh) && Tagged(sh, Outside)
    ensures Balanced(sh, Outside, sh2, pc2, i)
  {
    hide QueueOk, Tagged, Balanced, BeginStep, TokenStep, EventStep;
    match a
    case Start(c) => BeginBalance(t, c, sh, sh2, pc2, i);
    case Use(c) => TokenBalance(t, c, sh, sh2, pc2, i);
    case Event(c) => EventBalance(t, c, sh, sh2, pc2, i);
  }

  lemma StepBalance(t: nat, a: Action, sh: Shared, pc: Pc, sh2: Shared, pc2: Pc, i: nat)
    requires Step(t, a, sh, pc, sh2, pc2) && QueueOk(sh) && Ok(sh, t, pc) && Tagged(sh, pc)
    ensures Balanced(sh, pc, sh2, pc2, i)
  {
    hide QueueOk, Ok, Tagged, Balanced, OutsideStep, TryStep, AcquireStep, ClaimStep, RegisterStep,
         SleepStep, ReleaseStep, ReclaimStep, TakeStep, HandoffStep, CompleteStep, SweepStep, SettleStep, CountStep;
    match pc
    case Outside => OutsideBalance(t, a, sh, sh2, pc2, i);
    case Trying(p) => TryBalance(t, a, sh, p, sh2, pc2, i);
    case Acquiring(p) => AcquireBalance(t, a, sh, p, sh2, pc2, i);
    case Claiming(p) => ClaimBalance(t, a, sh, p, sh2, pc2, i);
    case Registering(p) => RegisterBalance(t, a, sh, p, sh2, pc2, i);
    case Sleeping(p) => SleepBalance(t, a, sh, p, sh2, pc2, i);
    case Releasing(p) => ReleaseBalance(t, a, sh, p, sh2, pc2, i);
    case Reclaiming(p) => ReclaimBalance(t, a, sh, p, sh2, pc2, i);
    case Taking(p) => TakeBalance(t, a, sh, p, sh2, pc2, i);
    case Handing(p) => HandoffBalance(t, a, sh, p, sh2, pc2, i);
    case Completing(p) => CompleteBalance(t, a, sh, p, sh2, pc2, i);
    case Sweeping(p) => SweepBalance(t, a, sh, p, sh2, pc2, i);
    case Settling(p) => SettleBalance(t, a, sh, p, sh2, pc2, i);
    case Counting(_, _, _) => CountBalance(t, a, sh, pc, sh2, pc2, i);
  }

  lemma StepInventory(t: nat, a: Action, sh: Shared, pc: Pc, sh2: Shared, pc2: Pc)
    requires Step(t, a, sh, pc, sh2, pc2) && Tagged(sh, pc) && Inventory(sh)
    ensures Inventory(sh2)
  {
    hide Inventory, Tagged, SameStock, TryStep, AcquireStep, ClaimStep, RegisterStep, TokenStep,
         SleepStep, ReleaseStep, ReclaimStep, TakeStep, HandoffStep, CompleteStep, SweepStep, SettleStep, CountStep;
    match pc
    case Outside =>
      if a.Use? {
        TokenInventory(t, a.token, sh, sh2, pc2);
      } else {
        OutsideStock(t, a, sh, sh2, pc2); SameInventory(sh, sh2);
      }
    case Claiming(p) => ClaimInventory(t, a, sh, p, sh2, pc2);
    case Releasing(p) => ReleaseInventory(t, a, sh, p, sh2, pc2);
    case Reclaiming(p) => ReclaimInventory(t, a, sh, p, sh2, pc2);
    case Taking(p) => TakeInventory(t, a, sh, p, sh2, pc2);
    case Handing(p) => HandoffInventory(t, a, sh, p, sh2, pc2);
    case Sweeping(p) => SweepInventory(t, a, sh, p, sh2, pc2);
    case Registering(p) => RegisterStock(t, a, sh, p, sh2, pc2); SameInventory(sh, sh2);
    case Completing(p) => CompleteStock(t, a, sh, p, sh2, pc2); SameInventory(sh, sh2);
    case Settling(p) => SettleStock(t, a, sh, p, sh2, pc2); SameInventory(sh, sh2);
    case _ => AcquireStock(t, a, sh, pc, sh2, pc2); SameInventory(sh, sh2);
  }

  ghost predicate Owned(s: State) {
    Places(s) && Inventory(s.sh)
  }

  lemma OwnedMove(s: State, t: nat, a: Action, s2: State)
    requires Protocol(s) && Owned(s) && Moves(s, t, a, s2)
    ensures Owned(s2)
  {
    hide Step, QueueOk, Ok, Inventory, Tagged, Holds, Swept;
    var pc, pc2 := s.ths[t], s2.ths[t];
    assert Ready(t, s.sh, pc);
    PlacesTag(s, t);
    StepInventory(t, a, s.sh, pc, s2.sh, pc2);
    forall i: nat ensures Placed(s2, i) {
      assert Placed(s, i);
      StepBalance(t, a, s.sh, pc, s2.sh, pc2, i);
      HeldCountSet(s.ths, t, pc2, i);
    }
  }

  lemma OwnedNext(s: State, s2: State)
    requires Protocol(s) && Owned(s) && Next(s, s2)
    ensures Owned(s2)
  {
    hide Protocol, Inventory, Moves;
    if t: nat, a: Action :| Moves(s, t, a, s2) {
      OwnedMove(s, t, a, s2);
    } else {
      SameInventory(s.sh, s2.sh);
      forall i: nat ensures Placed(s2, i) {
        assert Placed(s, i);
      }
    }
  }

  lemma {:induction false} NoneHeld(ths: seq<Pc>, i: nat)
    requires forall t :: 0 <= t < |ths| ==> ths[t] == Outside
    ensures HeldCount(ths, i) == 0 && SweptCount(ths, i) == 0
  {
    if ths != [] {
      NoneHeld(ths[..|ths| - 1], i);
    }
  }

  /** The constructor lists every index as vacant, once. */
  lemma {:induction false} CountDown(v: seq<nat>, n: nat, i: nat)
    requires |v| <= n && forall j :: 0 <= j < |v| ==> v[j] == n - 1 - j
    ensures multiset(v)[i] == One(n - |v| <= i < n)
  {
    if v != [] {
      var k := |v| - 1;
      assert v == v[..k] + [v[k]];
      CountDown(v[..k], n, i);
    }
  }

  lemma OwnedInit(s: State)
    requires Init(s)
    ensures Owned(s)
  {
    forall i: nat ensures Placed(s, i) {
      NoneHeld(s.ths, i);
      CountDown(s.sh.vacant, |s.sh.states|, i);
    }
  }
}
