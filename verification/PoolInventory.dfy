/**
 The pool's counters and the lifetime of the objects in its slots, across every step.
 */
module PoolInventory {
  import opened Basics
  import opened PoolModel
  import opened PoolPlaces

  /** The identity `assert_invariants_locked` checks; it holds between any two steps. */
  ghost predicate Counts(sh: Shared) {
    && |sh.states| == |sh.vacant| + sh.reserved + |sh.quarantined| + sh.usable
    && sh.reserved == |sh.filled| + |sh.blank|
  }

  /** A slot holds an object unless it is vacant or reserved and not yet constructed. */
  ghost predicate Alive(sh: Shared, i: nat) {
    i < |sh.states| && sh.states[i] != Vacant && i !in sh.blank
  }

  /** Each construction is matched by one destruction, except in the slots that hold an object. */
  ghost predicate Lifetimes(sh: Shared) {
    && |sh.built| == |sh.torn| == |sh.states|
    && forall i :: 0 <= i < |sh.states| ==> sh.built[i] == sh.torn[i] + One(Alive(sh, i))
  }

  ghost predicate Inventory(sh: Shared) {
    Counts(sh) && Lifetimes(sh)
  }

  ghost predicate SameStock(sh: Shared, sh2: Shared) {
    && sh2.states == sh.states && sh2.vacant == sh.vacant && sh2.quarantined == sh.quarantined
    && sh2.usable == sh.usable && sh2.reserved == sh.reserved && sh2.filled == sh.filled && sh2.blank == sh.blank
    && sh2.built == sh.built && sh2.torn == sh.torn
  }

  lemma SameInventory(sh: Shared, sh2: Shared)
    requires Inventory(sh) && SameStock(sh, sh2)
    ensures Inventory(sh2)
  {
    forall i | 0 <= i < |sh2.states| ensures sh2.built[i] == sh2.torn[i] + One(Alive(sh2, i)) {
      assert Alive(sh2, i) == Alive(sh, i);
    }
  }

  /** Claiming and publishing only exchange the idle and borrowed tags. */
  lemma RetagInventory(sh: Shared, j: nat, st: SlotState, sh2: Shared)
    requires Inventory(sh) && (Is(sh, j, Idle) || Is(sh, j, Borrowed)) && st != Vacant
    requires SameStock(SetState(sh, j, st), sh2)
    ensures Inventory(sh2)
  {
    forall i | 0 <= i < |sh2.states| ensures sh2.built[i] == sh2.torn[i] + One(Alive(sh2, i)) {
      assert Alive(sh2, i) == Alive(sh, i);
    }
  }

  lemma QuarantineInventory(sh: Shared, j: nat, sh2: Shared)
    requires Inventory(sh) && (Is(sh, j, Idle) || Is(sh, j, Borrowed)) && SameStock(Quarantine(sh, j), sh2)
    ensures Inventory(sh2)
  {
    forall i | 0 <= i < |sh2.states| ensures sh2.built[i] == sh2.torn[i] + One(Alive(sh2, i)) {
      assert Alive(sh2, i) == Alive(sh, i);
    }
  }

  lemma ClaimInventory(t: nat, a: Action, sh: Shared, p: ClaimPc, sh2: Shared, pc2: Pc)
    requires Inventory(sh) && Tagged(sh, Claiming(p)) && ClaimStep(t, a, sh, p, sh2, pc2)
    ensures Inventory(sh2)
  {
    hide Inventory;
    if p.Scan? || a.Fail? || p.snap == {} || WordBits(sh.bits, p.word) != p.snap {
      SameInventory(sh, sh2);
    } else {
      assert Lowest(p.snap) in WordBits(sh.bits, p.word);
      RetagInventory(sh, Lowest(p.snap), Borrowed, sh2);
    }
  }

  lemma ReleaseInventory(t: nat, a: Action, sh: Shared, p: RelPc, sh2: Shared, pc2: Pc)
    requires Inventory(sh) && Tagged(sh, Releasing(p)) && ReleaseStep(t, a, sh, p, sh2, pc2)
    ensures Inventory(sh2)
  {
    hide Inventory;
    if p.RelPublish? {
      assert Holds(Releasing(p), p.index);
      RetagInventory(sh, p.index, Idle, sh2);
    } else {
      SameInventory(sh, sh2);
    }
  }

  lemma ReclaimInventory(t: nat, a: Action, sh: Shared, p: RecPc, sh2: Shared, pc2: Pc)
    requires Inventory(sh) && Tagged(sh, Reclaiming(p)) && ReclaimStep(t, a, sh, p, sh2, pc2)
    ensures Inventory(sh2)
  {
    hide Inventory;
    if p.QuarLock? {
      assert Holds(Reclaiming(p), p.index);
      QuarantineInventory(sh, p.index, sh2);
    } else if p.ReclaimCas? && !a.Fail? && p.index in p.snap && WordBits(sh.bits, Word(p.index)) == p.snap {
      assert p.index in WordBits(sh.bits, Word(p.index));
      RetagInventory(sh, p.index, Borrowed, sh2);
    } else {
      SameInventory(sh, sh2);
    }
  }

  lemma ReserveFromUse(sh: Shared, j: nat, sh2: Shared)
    requires Inventory(sh) && Is(sh, j, Borrowed)
    requires SameStock(SetState(sh, j, Reserved).(usable := sh.usable - 1, reserved := sh.reserved + 1,
                                                  filled := sh.filled + multiset{j}), sh2)
    ensures Inventory(sh2)
  {
    forall i | 0 <= i < |sh2.states| ensures sh2.built[i] == sh2.torn[i] + One(Alive(sh2, i)) {
      assert Alive(sh2, i) == Alive(sh, i);
    }
  }

  lemma TakeInventory(t: nat, a: Action, sh: Shared, p: TakePc, sh2: Shared, pc2: Pc)
    requires Inventory(sh) && Tagged(sh, Taking(p)) && TakeStep(t, a, sh, p, sh2, pc2)
    ensures Inventory(sh2)
  {
    hide Inventory;
    if p.TakeLock? {
      assert Holds(Taking(p), p.index);
      if sh.closed {
        QuarantineInventory(sh, p.index, sh2);
      } else if sh.gate != 0 {
        RetagInventory(sh, p.index, Idle, sh2);
      } else {
        ReserveFromUse(sh, p.index, sh2);
      }
    } else {
      SameInventory(sh, sh2);
    }
  }

  lemma KeepStock(h: Sequel, sh: Shared, sh2: Shared, pc2: Pc)
    requires KeepHandoff(h, sh, sh2, pc2)
    ensures SameStock(sh, sh2)
  {
  }

  lemma HandoffInventory(t: nat, a: Action, sh: Shared, p: HandPc, sh2: Shared, pc2: Pc)
    requires Inventory(sh) && Tagged(sh, Handing(p)) && HandoffStep(t, a, sh, p, sh2, pc2)
    ensures Inventory(sh2)
  {
    hide Inventory, KeepHandoff;
    if p.Handoff? && (sh.closed || sh.queue == []) {
      assert Holds(Handing(p), p.index);
      if sh.closed {
        KeepStock(p.sequel, Quarantine(sh, p.index), sh2, pc2);
        QuarantineInventory(sh, p.index, sh2);
      } else {
        KeepStock(p.sequel, PublishBit(sh, p.index), sh2, pc2);
        RetagInventory(sh, p.index, Idle, sh2);
      }
    } else {
      SameInventory(sh, sh2);
    }
  }

  lemma SweepInventory(t: nat, a: Action, sh: Shared, p: SweepPc, sh2: Shared, pc2: Pc)
    requires Inventory(sh) && Tagged(sh, Sweeping(p)) && SweepStep(t, a, sh, p, sh2, pc2)
    ensures Inventory(sh2)
  {
    hide Inventory;
    if p.SweepBits? && p.left != {} {
      assert Swept(Sweeping(p), Lowest(p.left));
      QuarantineInventory(sh, Lowest(p.left), sh2);
    } else {
      SameInventory(sh, sh2);
    }
  }

  /** Construction and destruction happen on the token that owns the slot. */
  lemma TokenCounts(t: nat, c: TokenAction, sh: Shared, sh2: Shared, pc2: Pc)
    requires Counts(sh) && TokenStep(t, c, sh, sh2, pc2)
    ensures Counts(sh2)
  {
    assert !c.BeginReserve? && !c.BeginTakeQuarantined? ==> sh.filled[c.index] >= 0 && sh.blank[c.index] >= 0;
  }

  lemma TokenSizes(t: nat, c: TokenAction, sh: Shared, sh2: Shared, pc2: Pc)
    requires TokenStep(t, c, sh, sh2, pc2)
    ensures |sh2.built| == |sh.built| && |sh2.torn| == |sh.torn| && |sh2.states| == |sh.states|
  {
  }

  lemma ReserveLifetime(t: nat, c: TokenAction, sh: Shared, sh2: Shared, pc2: Pc, i: nat)
    requires c.BeginReserve? || c.BeginTakeQuarantined?
    requires Lifetimes(sh) && Tagged(sh, Outside) && TokenStep(t, c, sh, sh2, pc2) && i < |sh.states|
    requires |sh2.built| == |sh2.torn| == |sh2.states| == |sh.states|
    ensures sh2.built[i] == sh2.torn[i] + One(Alive(sh2, i))
  {
    assert sh.built[i] == sh.torn[i] + One(Alive(sh, i));
    assert sh.filled[i] + sh.blank[i] > 0 ==> sh.states[i] == Reserved;
    assert c.BeginReserve? && sh.vacant != [] ==> Is(sh, sh.vacant[|sh.vacant| - 1], Vacant);
    assert c.BeginTakeQuarantined? && sh.quarantined != [] ==>
             Is(sh, sh.quarantined[|sh.quarantined| - 1], Quarantined);
    hide Tagged, Lifetimes;
  }

  lemma UseLifetime(t: nat, c: TokenAction, sh: Shared, sh2: Shared, pc2: Pc, i: nat)
    requires !c.BeginReserve? && !c.BeginTakeQuarantined? && TokenStep(t, c, sh, sh2, pc2)
    requires i < |sh.states| == |sh.built| == |sh.torn| && |sh2.built| == |sh2.torn| == |sh2.states| == |sh.states|
    requires sh.built[i] == sh.torn[i] + One(Alive(sh, i)) && sh.filled[i] + sh.blank[i] <= 1
    requires sh.filled[i] + sh.blank[i] > 0 ==> sh.states[i] == Reserved
    ensures sh2.built[i] == sh2.torn[i] + One(Alive(sh2, i))
  {
  }

  lemma TokenLifetime(t: nat, c: TokenAction, sh: Shared, sh2: Shared, pc2: Pc, i: nat)
    requires Lifetimes(sh) && Tagged(sh, Outside) && TokenStep(t, c, sh, sh2, pc2) && i < |sh.states|
    requires |sh2.built| == |sh2.torn| == |sh2.states| == |sh.states|
    ensures sh2.built[i] == sh2.torn[i] + One(Alive(sh2, i))
  {
    if c.BeginReserve? || c.BeginTakeQuarantined? {
      hide Lifetimes, Tagged, Alive;
      ReserveLifetime(t, c, sh, sh2, pc2, i);
    } else {
      assert sh.built[i] == sh.torn[i] + One(Alive(sh, i));
      assert sh.filled[i] + sh.blank[i] <= 1;
      assert sh.filled[i] + sh.blank[i] > 0 ==> sh.states[i] == Reserved;
      hide Tagged, Lifetimes;
      UseLifetime(t, c, sh, sh2, pc2, i);
    }
  }

  lemma TokenLifetimes(t: nat, c: TokenAction, sh: Shared, sh2: Shared, pc2: Pc)
    requires Lifetimes(sh) && Tagged(sh, Outside) && TokenStep(t, c, sh, sh2, pc2)
    ensures Lifetimes(sh2)
  {
    TokenSizes(t, c, sh, sh2, pc2);
    hide TokenStep, Tagged, Alive;
    forall i | 0 <= i < |sh2.states| ensures sh2.built[i] == sh2.torn[i] + One(Alive(sh2, i)) {
      TokenLifetime(t, c, sh, sh2, pc2, i);
    }
  }

  lemma TokenInventory(t: nat, c: TokenAction, sh: Shared, sh2: Shared, pc2: Pc)
    requires Inventory(sh) && Tagged(sh, Outside) && TokenStep(t, c, sh, sh2, pc2)
    ensures Inventory(sh2)
  {
    hide TokenStep, Tagged, Counts, Lifetimes;
    TokenCounts(t, c, sh, sh2, pc2);
    TokenLifetimes(t, c, sh, sh2, pc2);
  }

  // The other routines move nodes, tokens and program counters only.

  lemma TryStock(t: nat, a: Action, sh: Shared, p: TryPc, sh2: Shared, pc2: Pc)
    requires TryStep(t, a, sh, p, sh2, pc2)
    ensures SameStock(sh, sh2)
  {
  }

  lemma FastStock(t: nat, a: Action, sh: Shared, p: AcqPc, sh2: Shared, pc2: Pc)
    requires AcquireStep(t, a, sh, p, sh2, pc2)
    ensures SameStock(sh, sh2)
  {
    hide Expired;
  }

  lemma AcquireStock(t: nat, a: Action, sh: Shared, pc: Pc, sh2: Shared, pc2: Pc)
    requires pc.Trying? || pc.Acquiring? || pc.Sleeping? || pc.Counting?
    requires Step(t, a, sh, pc, sh2, pc2)
    ensures SameStock(sh, sh2)
  {
    hide TryStep, AcquireStep, Without;
    if pc.Trying? {
      hide SameStock;
      TryStock(t, a, sh, pc.atTry, sh2, pc2);
    } else if pc.Acquiring? {
      hide SameStock;
      FastStock(t, a, sh, pc.atAcq, sh2, pc2);
    }
  }

  lemma RegisterStock(t: nat, a: Action, sh: Shared, p: RegPc, sh2: Shared, pc2: Pc)
    requires RegisterStep(t, a, sh, p, sh2, pc2)
    ensures SameStock(sh, sh2)
  {
  }

  lemma CompleteStock(t: nat, a: Action, sh: Shared, p: CompPc, sh2: Shared, pc2: Pc)
    requires CompleteStep(t, a, sh, p, sh2, pc2)
    ensures SameStock(sh, sh2)
  {
  }

  lemma SettleStock(t: nat, a: Action, sh: Shared, p: SettlePc, sh2: Shared, pc2: Pc)
    requires SettleStep(t, a, sh, p, sh2, pc2)
    ensures SameStock(sh, sh2)
  {
  }

  lemma OutsideStock(t: nat, a: Action, sh: Shared, sh2: Shared, pc2: Pc)
    requires OutsideStep(t, a, sh, sh2, pc2) && !a.Use?
    ensures SameStock(sh, sh2)
  {
  }
}
