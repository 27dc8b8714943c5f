/**
 `stats` counts idle bits word by word while other threads claim and publish. The count
 never exceeds the usable size, because each bit is read once and only the mutex holder
 can make a slot usable or unusable.
 */
module PoolStats {
  import opened PoolModel
  import opened PoolProtocol
  import opened PoolPlaces
  import opened PoolInventory

  ghost predicate Usable(sh: Shared, i: nat) {
    Is(sh, i, Idle) || Is(sh, i, Borrowed)
  }

  ghost predicate Counted(sh: Shared, pc: Pc) {
    pc.Counting? ==> pc.count == |pc.seen| && forall i :: i in pc.seen ==> Word(i) < pc.word && Usable(sh, i)
  }

  lemma OutsideUsable(t: nat, a: Action, sh: Shared, sh2: Shared, pc2: Pc, i: nat)
    requires OutsideStep(t, a, sh, sh2, pc2) && sh.owner != -1 && Usable(sh, i)
    ensures Usable(sh2, i)
  {
    if a.Use? {
    } else {
      OutsideStock(t, a, sh, sh2, pc2);
    }
  }

  lemma SlotUsable(t: nat, a: Action, sh: Shared, pc: Pc, sh2: Shared, pc2: Pc, i: nat)
    requires pc.Claiming? || pc.Releasing? || pc.Reclaiming? || pc.Taking? || pc.Handing? || pc.Sweeping?
    requires Step(t, a, sh, pc, sh2, pc2) && sh.owner != -1 && sh.owner != t
    requires (sh.owner == t <==> HasMutex(pc)) && Usable(sh, i)
    ensures Usable(sh2, i)
  {
    hide Lowest, WordBits, Words;
  }

  /** While another thread holds the mutex, no step changes which slots are usable. */
  lemma UsableKept(t: nat, a: Action, sh: Shared, pc: Pc, sh2: Shared, pc2: Pc, i: nat)
    requires Step(t, a, sh, pc, sh2, pc2) && sh.owner != -1 && sh.owner != t
    requires (sh.owner == t <==> HasMutex(pc)) && Usable(sh, i)
    ensures Usable(sh2, i)
  {
    hide HasMutex, OutsideStep, TryStep, AcquireStep, ClaimStep, RegisterStep,
         SleepStep, ReleaseStep, ReclaimStep, TakeStep, HandoffStep, CompleteStep, SweepStep, SettleStep, CountStep;
    match pc
    case Outside => OutsideUsable(t, a, sh, sh2, pc2, i);
    case Registering(p) => RegisterStock(t, a, sh, p, sh2, pc2);
    case Completing(p) => CompleteStock(t, a, sh, p, sh2, pc2);
    case Settling(p) => SettleStock(t, a, sh, p, sh2, pc2);
    case Trying(_) => AcquireStock(t, a, sh, pc, sh2, pc2);
    case Acquiring(_) => AcquireStock(t, a, sh, pc, sh2, pc2);
    case Sleeping(_) => AcquireStock(t, a, sh, pc, sh2, pc2);
    case Counting(_, _, _) => AcquireStock(t, a, sh, pc, sh2, pc2);
    case _ => SlotUsable(t, a, sh, pc, sh2, pc2, i);
  }

  /** Counting starts from nothing and adds one word at a time. */
  lemma StepCounted(t: nat, a: Action, sh: Shared, pc: Pc, sh2: Shared, pc2: Pc)
    requires Step(t, a, sh, pc, sh2, pc2) && Tagged(sh, pc) && Counted(sh, pc) && (sh.owner == t <==> HasMutex(pc))
    requires sh2.owner == t <==> HasMutex(pc2)
    ensures Counted(sh2, pc2)
  {
    if pc.Counting? {
      var more := WordBits(sh.bits, pc.word);
      assert pc.seen !! more;
      assert |pc.seen + more| == |pc.seen| + |more|;
    } else {
      CountBegins(t, a, sh, pc, sh2, pc2);
    }
  }

  lemma CountBegins(t: nat, a: Action, sh: Shared, pc: Pc, sh2: Shared, pc2: Pc)
    requires Step(t, a, sh, pc, sh2, pc2) && !pc.Counting?
    ensures pc2.Counting? ==> pc2 == Counting(0, 0, {})
  {
    hide TryStep, AcquireStep, ClaimStep, RegisterStep, SleepStep, ReleaseStep, ReclaimStep, TakeStep, HandoffStep,
         CompleteStep, SweepStep, SettleStep;
    if pc.Trying? || pc.Acquiring? || pc.Claiming? || pc.Registering? || pc.Sleeping? || pc.Taking? {
      CallCountsNot(t, a, sh, pc, sh2, pc2);
    } else if !pc.Outside? {
      OtherCountsNot(t, a, sh, pc, sh2, pc2);
    }
  }

  lemma CallCountsNot(t: nat, a: Action, sh: Shared, pc: Pc, sh2: Shared, pc2: Pc)
    requires pc.Trying? || pc.Acquiring? || pc.Claiming? || pc.Registering? || pc.Sleeping? || pc.Taking?
    requires Step(t, a, sh, pc, sh2, pc2)
    ensures !pc2.Counting?
  {
  }

  lemma OtherCountsNot(t: nat, a: Action, sh: Shared, pc: Pc, sh2: Shared, pc2: Pc)
    requires pc.Releasing? || pc.Reclaiming? || pc.Handing? || pc.Completing? || pc.Sweeping? || pc.Settling?
    requires Step(t, a, sh, pc, sh2, pc2)
    ensures !pc2.Counting?
  {
  }
}
