/**
 What the pool guarantees along a run: outcomes of waiters are decided once, handoffs go to
 the oldest waiter, an assigned slot is consumed once, and closure is final.
 */
module PoolHistory {
  import opened Basics
  import opened PoolModel
  import opened PoolProtocol
  import opened PoolSteps
  import opened PoolInvariant
  import opened PoolPlaces
  import opened PoolOwnership
  import opened PoolWaiters
  import opened PoolWakeup
  import opened PoolTheorems

  // ------------------------------------------------------------------ outcomes

  /** A node's identity never changes; its outcome, once decided, never changes either. */
  ghost predicate Kept(was: Node, got: Node) {
    && got.kind == was.kind && got.deadline == was.deadline && got.owner == was.owner
    && (was.linked ==> got.linked && got.ticket == was.ticket) && (was.taken ==> got.taken)
    && (was.state != Queued ==> got.state == was.state && got.slot == was.slot)
  }

  ghost predicate Follows(s: State, s2: State) {
    && |s2.ths| == |s.ths| && |s.sh.nodes| <= |s2.sh.nodes| && (s.sh.closed ==> s2.sh.closed)
    && forall n :: 0 <= n < |s.sh.nodes| ==> Kept(s.sh.nodes[n], s2.sh.nodes[n])
  }

  lemma NextFollows(s: State, s2: State)
    requires Inv(s) && Next(s, s2)
    ensures Follows(s, s2)
  {
    hide Owned, Step;
    if t: nat, a: Action :| Moves(s, t, a, s2) {
      MovePost(s, t, a, s2);
      hide Protocol, QueueOk, Settles;
      forall n | 0 <= n < |s.sh.nodes| ensures Kept(s.sh.nodes[n], s2.sh.nodes[n]) {
        assert NodeEvolves(t, s.sh, s.sh.nodes[n], s2.sh.nodes[n]);
      }
    }
  }

  /** Every waiter leaves `queued` at most once, whatever races to complete it, and closure is final. */
  lemma {:induction false} OutcomeOnce(r: seq<State>, j: nat, k: nat)
    requires Run(r) && j <= k < |r|
    ensures Follows(r[j], r[k])
    decreases k - j
  {
    hide Next, Init, Inv;
    if j < k {
      Invariant(r, k - 1);
      OutcomeOnce(r, j, k - 1);
      assert Next(r[k - 1], r[k - 1 + 1]);
      NextFollows(r[k - 1], r[k]);
      forall n | 0 <= n < |r[j].sh.nodes| ensures Kept(r[j].sh.nodes[n], r[k].sh.nodes[n]) {
        assert Kept(r[j].sh.nodes[n], r[k - 1].sh.nodes[n]);
        assert Kept(r[k - 1].sh.nodes[n], r[k].sh.nodes[n]);
      }
    }
  }

  /** Thread `t` found node `n` at the head of an open queue and not past its deadline, and has
      been at the handoff since. */
  ghost predicate Looked(r: seq<State>, j: nat, k: nat, t: nat, n: nat, p: CompPc)
    requires j < k < |r|
  {
    && n < |r[j].sh.nodes| && r[j].sh.queue != [] && r[j].sh.queue[0] == n && !r[j].sh.closed
    && !Expired(r[j].sh.nodes[n].deadline, r[j].sh.now)
    && (forall m :: j <= m <= k ==> t < |r[m].ths|)
    && r[j].ths[t].Handing? && r[j].ths[t].atHand.Handoff? && p.Give? && p.index == r[j].ths[t].atHand.index
    && forall m :: j < m <= k ==> r[m].ths[t] == Completing(p)
  }

  ghost predicate Gives(pc: Pc) {
    pc.Completing? && pc.atComp.Give?
  }

  lemma EntryGivesNothing(t: nat, a: Action, sh: Shared, pc: Pc, sh2: Shared, pc2: Pc)
    requires || pc.Outside? || pc.Trying? || pc.Acquiring? || pc.Claiming?
             || pc.Registering? || pc.Sleeping? || pc.Settling?
    requires Step(t, a, sh, pc, sh2, pc2)
    ensures !Gives(pc2)
  {
  }

  lemma PlainGivesNothing(t: nat, a: Action, sh: Shared, pc: Pc, sh2: Shared, pc2: Pc)
    requires pc.Releasing? || pc.Reclaiming? || pc.Taking? || pc.Sweeping? || pc.Counting? || pc.Completing?
    requires Step(t, a, sh, pc, sh2, pc2)
    ensures !Gives(pc2)
  {
  }

  /** Only a handoff that looked at the head of the queue offers a slot. */
  lemma GiveAfterLook(t: nat, a: Action, sh: Shared, pc: Pc, sh2: Shared, pc2: Pc)
    requires Step(t, a, sh, pc, sh2, pc2) && Gives(pc2)
    ensures pc.Handing? && pc.atHand.Handoff? && !sh.closed && sh.queue != [] && sh.queue[0] == pc2.atComp.node
    ensures pc2.atComp.index == pc.atHand.index
    ensures pc2.atComp.node < |sh.nodes| && !Expired(sh.nodes[pc2.atComp.node].deadline, sh.now)
  {
    hide Expired, OutsideStep, SettleStep, CompleteStep, SleepStep, RegisterStep, TryStep, AcquireStep, ClaimStep,
         ReleaseStep, ReclaimStep, TakeStep, SweepStep, CountStep;
    if !pc.Handing? {
      if pc.Releasing? || pc.Reclaiming? || pc.Taking? || pc.Sweeping? || pc.Counting? || pc.Completing? {
        PlainGivesNothing(t, a, sh, pc, sh2, pc2);
      } else {
        EntryGivesNothing(t, a, sh, pc, sh2, pc2);
      }
    }
  }

  lemma MoverSteps(s: State, t: nat, a: Action, s2: State)
    requires Moves(s, t, a, s2)
    ensures t < |s.ths| == |s2.ths| && Step(t, a, s.sh, s.ths[t], s2.sh, s2.ths[t])
  {
  }

  lemma StandsStill(s: State, s2: State, t: nat)
    requires Next(s, s2) && t < |s2.ths| && forall a :: !Moves(s, t, a, s2)
    ensures t < |s.ths| && s2.ths[t] == s.ths[t]
  {
  }

  lemma {:induction false} GiveLooked(r: seq<State>, k: nat, t: nat)
    requires Run(r) && k < |r| && t < |r[k].ths| && Gives(r[k].ths[t])
    ensures exists j :: 0 <= j < k && Looked(r, j, k, t, r[k].ths[t].atComp.node, r[k].ths[t].atComp)
    decreases k
  {
    hide Next, Moves, Expired;
    var p := r[k].ths[t].atComp;
    if k > 0 {
      var s, s2 := r[k - 1], r[k];
      RunNext(r, k - 1);
      if a: Action :| Moves(s, t, a, s2) {
        MoverSteps(s, t, a, s2);
        GiveAfterLook(t, a, s.sh, s.ths[t], s2.sh, s2.ths[t]);
        assert Looked(r, k - 1, k, t, p.node, p);
      } else {
        StandsStill(s, s2, t);
        GiveLooked(r, k - 1, t);
        var j :| 0 <= j < k - 1 && Looked(r, j, k - 1, t, p.node, p);
        assert Looked(r, j, k, t, p.node, p);
      }
    }
  }

  /** A handoff goes to the head of the queue, which has the smallest ticket, never in a closed
      pool, and the thread that makes it found that waiter unexpired. */
  lemma HandoffToOldest(r: seq<State>, k: nat, n: nat)
    requires Run(r) && k + 1 < |r| && n in r[k].sh.queue
    requires n < |r[k + 1].sh.nodes| && r[k + 1].sh.nodes[n].state == Assigned
    ensures !r[k].sh.closed && r[k].sh.queue[0] == n
    ensures n < |r[k].sh.nodes|
    ensures forall m :: m in r[k].sh.queue && m != n ==>
              m < |r[k].sh.nodes| && r[k].sh.nodes[n].ticket < r[k].sh.nodes[m].ticket
    ensures exists j, t: nat, p ::
              0 <= j < k && Looked(r, j, k, t, n, p) && p.Give? && p.index == r[k + 1].sh.nodes[n].slot
  {
    Invariant(r, k);
    hide Owned, Step;
    var s, s2 := r[k], r[k + 1];
    assert Next(s, s2) && NodeOk(s.sh, n);
    if t: nat, a: Action :| Moves(s, t, a, s2) {
      assert Ready(t, s.sh, s.ths[t]);
      StepAttend(t, a, s.sh, s.ths[t], s2.sh, s2.ths[t], n);
      GiveLooked(r, k, t);
    }
  }

  // ------------------------------------------------------------------ consumption of an assigned slot

  /** The step that takes an assigned slot from its node hands it to one new owner. */
  ghost predicate Consumed(node: Node, sh: Shared, sh2: Shared, pc2: Pc) {
    || (sh2.borrowed == sh.borrowed + multiset{node.slot} && !Holds(pc2, node.slot))
    || (sh2.borrowed == sh.borrowed && Holds(pc2, node.slot))
  }

  ghost predicate Consumes(sh: Shared, sh2: Shared, pc2: Pc, n: nat) {
    n < |sh.nodes| && n < |sh2.nodes| && NodeHolds(sh.nodes[n], sh.nodes[n].slot) && sh2.nodes[n].taken ==>
      Consumed(sh.nodes[n], sh, sh2, pc2)
  }

  lemma EventConsumes(t: nat, c: EventAction, sh: Shared, sh2: Shared, pc2: Pc, n: nat)
    requires EventStep(t, c, sh, sh2, pc2)
    ensures Consumes(sh, sh2, pc2, n)
  {
  }

  lemma RegisterConsumes(t: nat, a: Action, sh: Shared, p: RegPc, sh2: Shared, pc2: Pc, n: nat)
    requires RegisterStep(t, a, sh, p, sh2, pc2) && RegisterOk(sh, t, p)
    ensures Consumes(sh, sh2, pc2, n)
  {
  }

  lemma SleepConsumes(t: nat, a: Action, sh: Shared, p: SleepPc, sh2: Shared, pc2: Pc, n: nat)
    requires SleepStep(t, a, sh, p, sh2, pc2)
    ensures Consumes(sh, sh2, pc2, n)
  {
  }

  lemma SettleConsumes(t: nat, a: Action, sh: Shared, p: SettlePc, sh2: Shared, pc2: Pc, n: nat)
    requires SettleStep(t, a, sh, p, sh2, pc2) && SettleOk(sh, t, p)
    ensures Consumes(sh, sh2, pc2, n)
  {
  }

  lemma SelectTakes(t: nat, sh: Shared, m: nat, st: WaiterState, after: After, sh2: Shared, pc2: Pc, n: nat)
    requires CompleteNode(t, sh, m, st, after, sh2, pc2) && n < |sh.nodes|
    ensures |sh2.nodes| == |sh.nodes| && sh2.nodes[n].taken == sh.nodes[n].taken
  {
    hide Without;
  }

  /** Selecting and handing over a waiter takes nothing from it. */
  lemma CompleteTakes(t: nat, a: Action, sh: Shared, p: CompPc, sh2: Shared, pc2: Pc, n: nat)
    requires CompleteStep(t, a, sh, p, sh2, pc2) && n < |sh.nodes|
    ensures |sh2.nodes| == |sh.nodes| && sh2.nodes[n].taken == sh.nodes[n].taken
  {
    hide CompleteNode, Resume;
    if p.Complete? {
      SelectTakes(t, sh, p.node, p.outcome, p.after, sh2, pc2, n);
    } else if p.Give? {
      SelectTakes(t, SetNode(sh, p.node, sh.nodes[p.node].(slot := p.index)), p.node, Assigned, AfterGive(p.sequel),
                  sh2, pc2, n);
    }
  }

  lemma CompleteConsumes(t: nat, a: Action, sh: Shared, p: CompPc, sh2: Shared, pc2: Pc, n: nat)
    requires CompleteStep(t, a, sh, p, sh2, pc2)
    ensures Consumes(sh, sh2, pc2, n)
  {
    hide CompleteStep, Consumed;
    if n < |sh.nodes| {
      CompleteTakes(t, a, sh, p, sh2, pc2, n);
    }
  }

  /** A step that leaves the nodes it finds alone takes nothing from them. */
  lemma SameNodesConsume(sh: Shared, sh2: Shared, pc2: Pc, n: nat)
    requires sh.nodes <= sh2.nodes
    ensures Consumes(sh, sh2, pc2, n)
  {
  }

  lemma PlainConsumes(t: nat, a: Action, sh: Shared, pc: Pc, sh2: Shared, pc2: Pc, n: nat)
    requires pc.Trying? || pc.Acquiring? || pc.Claiming? || pc.Releasing? || pc.Reclaiming? || pc.Taking?
    requires Step(t, a, sh, pc, sh2, pc2)
    ensures Consumes(sh, sh2, pc2, n)
  {
    hide Consumes, Lowest, WordBits, Words, Expired;
    SameNodesConsume(sh, sh2, pc2, n);
  }

  lemma OtherConsumes(t: nat, a: Action, sh: Shared, pc: Pc, sh2: Shared, pc2: Pc, n: nat)
    requires pc.Handing? || pc.Sweeping? || pc.Counting? || (pc.Outside? && !a.Event?)
    requires Step(t, a, sh, pc, sh2, pc2)
    ensures Consumes(sh, sh2, pc2, n)
  {
    hide Consumes;
    SameNodesConsume(sh, sh2, pc2, n);
  }

  lemma StepConsumes(t: nat, a: Action, sh: Shared, pc: Pc, sh2: Shared, pc2: Pc, n: nat)
    requires Step(t, a, sh, pc, sh2, pc2) && Ok(sh, t, pc)
    ensures Consumes(sh, sh2, pc2, n)
  {
    hide Consumes, EventStep, RegisterStep, SleepStep, SettleStep, CompleteStep, RegisterOk, SettleOk, BeginStep,
         TokenStep, TryStep, AcquireStep, ClaimStep, ReleaseStep, ReclaimStep, TakeStep, HandoffStep,
         SweepStep, CountStep;
    match pc
    case Registering(p) => RegisterConsumes(t, a, sh, p, sh2, pc2, n);
    case Sleeping(p) => SleepConsumes(t, a, sh, p, sh2, pc2, n);
    case Settling(p) => SettleConsumes(t, a, sh, p, sh2, pc2, n);
    case Completing(p) => CompleteConsumes(t, a, sh, p, sh2, pc2, n);
    case Outside =>
      if a.Event? {
        EventConsumes(t, a.event, sh, sh2, pc2, n);
      } else {
        OtherConsumes(t, a, sh, pc, sh2, pc2, n);
      }
    case Handing(_) => OtherConsumes(t, a, sh, pc, sh2, pc2, n);
    case Sweeping(_) => OtherConsumes(t, a, sh, pc, sh2, pc2, n);
    case Counting(_, _, _) => OtherConsumes(t, a, sh, pc, sh2, pc2, n);
    case _ => PlainConsumes(t, a, sh, pc, sh2, pc2, n);
  }

  /** An assigned slot leaves its waiter in one step, to exactly one of a Borrowed token
      (delivery) and a thread returning it (abandonment or initiation rollback). */
  lemma AssignedConsumedOnce(r: seq<State>, k: nat, n: nat)
    requires Run(r) && k + 1 < |r| && n < |r[k].sh.nodes| && NodeHolds(r[k].sh.nodes[n], r[k].sh.nodes[n].slot)
    requires n < |r[k + 1].sh.nodes| && r[k + 1].sh.nodes[n].taken
    ensures var s, s2 := r[k], r[k + 1];
            exists t :: 0 <= t < |s2.ths| && Consumed(s.sh.nodes[n], s.sh, s2.sh, s2.ths[t])
  {
    Invariant(r, k);
    hide Owned, Step, Consumed, QueueOk;
    var s, s2 := r[k], r[k + 1];
    assert Next(s, s2);
    if t: nat, a: Action :| Moves(s, t, a, s2) {
      assert Ready(t, s.sh, s.ths[t]);
      StepConsumes(t, a, s.sh, s.ths[t], s2.sh, s2.ths[t], n);
    }
  }

  // ------------------------------------------------------------------ closure

  /** A thread that started its call after closure: it never reaches a scan, a claim or the queue. */
  ghost predicate Late(pc: Pc) {
    match pc
    case Trying(p) => p.TryClosed?
    case Acquiring(p) => p.AcqClosed?
    case Taking(p) => p.TakeClosed?
    case Claiming(_) => false
    case Registering(_) => false
    case Sleeping(_) => false
    case _ => true
  }

  /** A late call is turned away, touching nothing but its answer. */
  ghost predicate Refused(sh: Shared, pc: Pc, sh2: Shared, pc2: Pc) {
    Late(pc2) && (pc.Trying? || pc.Acquiring? || pc.Taking? ==> sh2 == sh.(answers := sh2.answers) && pc2 == Outside)
  }

  ghost predicate Shrinks(sh: Shared, sh2: Shared) {
    (forall n :: n in sh2.queue ==> n in sh.queue) && |sh2.queue| <= |sh.queue|
  }

  lemma UnlinkShrinks(sh: Shared, t: nat, n: nat, st: WaiterState)
    requires n < |sh.nodes| && n in sh.queue && QueueOk(sh)
    ensures Shrinks(sh, Unlink(sh, t, n, st)) && |Unlink(sh, t, n, st).queue| == |sh.queue| - 1
  {
    WithoutMembers(sh.queue, n);
  }

  lemma SameQueueShrinks(sh: Shared, sh2: Shared)
    requires sh2.queue == sh.queue
    ensures Shrinks(sh, sh2)
  {
  }

  lemma EntryRefused(t: nat, a: Action, sh: Shared, pc: Pc, sh2: Shared, pc2: Pc)
    requires pc.Trying? || pc.Acquiring? || pc.Taking? || pc.Claiming?
    requires sh.closed && Step(t, a, sh, pc, sh2, pc2)
    ensures Shrinks(sh, sh2) && (Late(pc) ==> Refused(sh, pc, sh2, pc2))
  {
  }

  lemma PlainRefused(t: nat, a: Action, sh: Shared, pc: Pc, sh2: Shared, pc2: Pc)
    requires pc.Releasing? || pc.Reclaiming? || pc.Handing? || pc.Sweeping? || pc.Counting?
    requires sh.closed && Step(t, a, sh, pc, sh2, pc2)
    ensures Shrinks(sh, sh2) && (Late(pc) ==> Refused(sh, pc, sh2, pc2))
  {
    hide Shrinks, HandoffStep, SweepStep;
    if pc.Handing? {
      HandoffRefused(t, a, sh, pc, sh2, pc2);
    } else if pc.Sweeping? {
      SweepRefused(t, a, sh, pc, sh2, pc2);
    } else {
      SameQueueShrinks(sh, sh2);
    }
  }

  lemma HandoffRefused(t: nat, a: Action, sh: Shared, pc: Pc, sh2: Shared, pc2: Pc)
    requires pc.Handing? && sh.closed && Step(t, a, sh, pc, sh2, pc2)
    ensures Shrinks(sh, sh2) && (Late(pc) ==> Refused(sh, pc, sh2, pc2))
  {
    hide Shrinks;
    SameQueueShrinks(sh, sh2);
  }

  lemma SweepRefused(t: nat, a: Action, sh: Shared, pc: Pc, sh2: Shared, pc2: Pc)
    requires pc.Sweeping? && sh.closed && Step(t, a, sh, pc, sh2, pc2)
    ensures Shrinks(sh, sh2) && (Late(pc) ==> Refused(sh, pc, sh2, pc2))
  {
    hide Shrinks;
    SameQueueShrinks(sh, sh2);
  }

  lemma RegisterShrinks(t: nat, a: Action, sh: Shared, p: RegPc, sh2: Shared, pc2: Pc)
    requires sh.closed && RegisterOk(sh, t, p) && RegisterStep(t, a, sh, p, sh2, pc2)
    ensures Shrinks(sh, sh2)
  {
  }

  lemma SleepShrinks(t: nat, a: Action, sh: Shared, p: SleepPc, sh2: Shared, pc2: Pc)
    requires sh.closed && SleepOk(sh, t, p) && QueueOk(sh) && SleepStep(t, a, sh, p, sh2, pc2)
    ensures Shrinks(sh, sh2)
  {
    if p.Awake? && sh.nodes[p.node].state == Queued {
      assert NodeOk(sh, p.node);
      UnlinkShrinks(sh, t, p.node, TimedOut);
    }
  }

  lemma CompleteRefused(t: nat, a: Action, sh: Shared, p: CompPc, sh2: Shared, pc2: Pc)
    requires sh.closed && CompleteOk(sh, t, p) && QueueOk(sh) && CompleteStep(t, a, sh, p, sh2, pc2)
    ensures Shrinks(sh, sh2) && Refused(sh, Completing(p), sh2, pc2)
    ensures p.Complete? ==> |sh2.queue| == |sh.queue| - 1
  {
    if p.Complete? {
      UnlinkShrinks(sh, t, p.node, p.outcome);
    }
  }

  lemma SettleRefused(t: nat, a: Action, sh: Shared, p: SettlePc, sh2: Shared, pc2: Pc)
    requires sh.closed && QueueOk(sh) && SettleStep(t, a, sh, p, sh2, pc2)
    ensures Shrinks(sh, sh2) && Refused(sh, Settling(p), sh2, pc2)
  {
    if p.PrepareAbandon? && p.node < |sh.nodes| && p.node in sh.queue {
      UnlinkShrinks(sh, t, p.node, Cancelled);
    }
  }

  lemma TokenRefused(t: nat, c: TokenAction, sh: Shared, sh2: Shared, pc2: Pc)
    requires sh.closed && TokenStep(t, c, sh, sh2, pc2)
    ensures Shrinks(sh, sh2) && Refused(sh, Outside, sh2, pc2)
  {
  }

  lemma EventRefused(t: nat, c: EventAction, sh: Shared, sh2: Shared, pc2: Pc)
    requires sh.closed && EventStep(t, c, sh, sh2, pc2)
    ensures Shrinks(sh, sh2) && Refused(sh, Outside, sh2, pc2)
  {
  }

  lemma OutsideRefused(t: nat, a: Action, sh: Shared, sh2: Shared, pc2: Pc)
    requires sh.closed && OutsideStep(t, a, sh, sh2, pc2)
    ensures Shrinks(sh, sh2) && Refused(sh, Outside, sh2, pc2)
  {
    hide TokenStep, EventStep, Shrinks;
    if a.Use? {
      TokenRefused(t, a.token, sh, sh2, pc2);
    } else if a.Event? {
      EventRefused(t, a.event, sh, sh2, pc2);
    } else {
      SameQueueShrinks(sh, sh2);
    }
  }

  lemma StepRefused(t: nat, a: Action, sh: Shared, pc: Pc, sh2: Shared, pc2: Pc)
    requires sh.closed && Ok(sh, t, pc) && QueueOk(sh) && Step(t, a, sh, pc, sh2, pc2)
    ensures Shrinks(sh, sh2) && (Late(pc) ==> Refused(sh, pc, sh2, pc2))
  {
    hide Refused, Shrinks, QueueOk, OutsideStep, SettleStep, CompleteStep, SleepStep, RegisterStep,
         TryStep, AcquireStep, ClaimStep, ReleaseStep, ReclaimStep, TakeStep, HandoffStep, SweepStep, CountStep;
    match pc
    case Outside => OutsideRefused(t, a, sh, sh2, pc2);
    case Settling(p) => SettleRefused(t, a, sh, p, sh2, pc2);
    case Completing(p) => CompleteRefused(t, a, sh, p, sh2, pc2);
    case Registering(p) => RegisterShrinks(t, a, sh, p, sh2, pc2);
    case Sleeping(p) => SleepShrinks(t, a, sh, p, sh2, pc2);
    case Trying(_) => EntryRefused(t, a, sh, pc, sh2, pc2);
    case Acquiring(_) => EntryRefused(t, a, sh, pc, sh2, pc2);
    case Claiming(_) => EntryRefused(t, a, sh, pc, sh2, pc2);
    case Taking(_) => EntryRefused(t, a, sh, pc, sh2, pc2);
    case Releasing(_) => PlainRefused(t, a, sh, pc, sh2, pc2);
    case Reclaiming(_) => PlainRefused(t, a, sh, pc, sh2, pc2);
    case Handing(_) => PlainRefused(t, a, sh, pc, sh2, pc2);
    case Sweeping(_) => PlainRefused(t, a, sh, pc, sh2, pc2);
    case Counting(_, _, _) => PlainRefused(t, a, sh, pc, sh2, pc2);
  }

  lemma NextRefused(s: State, s2: State, t: nat)
    requires Inv(s) && s.sh.closed && Next(s, s2) && t < |s.ths| == |s2.ths|
    ensures Shrinks(s.sh, s2.sh) && (Late(s.ths[t]) ==> Late(s2.ths[t]))
  {
    hide Step, Late, Owned, QueueOk;
    if q: nat, a: Action :| Moves(s, q, a, s2) {
      assert Ready(q, s.sh, s.ths[q]);
      StepRefused(q, a, s.sh, s.ths[q], s2.sh, s2.ths[q]);
    }
  }

  lemma RunNext(r: seq<State>, k: nat)
    requires Run(r) && k + 1 < |r|
    ensures Next(r[k], r[k + 1])
  {
  }

  lemma ShrinksMore(a: Shared, b: Shared, c: Shared)
    requires Shrinks(a, b) && Shrinks(b, c)
    ensures Shrinks(a, c)
  {
  }

  lemma LateStart(sh: Shared)
    ensures Shrinks(sh, sh) && Late(Outside)
  {
  }

  lemma ClosureStays(r: seq<State>, j: nat, k: nat)
    requires Run(r) && j <= k < |r|
    ensures (r[j].sh.closed ==> r[k].sh.closed) && |r[k].ths| == |r[j].ths|
  {
    OutcomeOnce(r, j, k);
  }

  /** After closure the queue only shrinks, and a thread outside the pool at closure never
      again claims a slot or joins the queue. */
  lemma {:induction false} NoLateAcquire(r: seq<State>, j: nat, k: nat, t: nat)
    requires Run(r) && j <= k < |r| && r[j].sh.closed && t < |r[j].ths|
    ensures r[k].sh.closed && t < |r[k].ths| && Shrinks(r[j].sh, r[k].sh)
    ensures r[j].ths[t] == Outside ==> Late(r[k].ths[t])
    decreases k - j
  {
    hide *;
    ClosureStays(r, j, k);
    if j == k {
      LateStart(r[j].sh);
    } else {
      ClosureStays(r, k - 1, k);
      NoLateAcquire(r, j, k - 1, t);
      Invariant(r, k - 1);
      RunNext(r, k - 1);
      NextRefused(r[k - 1], r[k], t);
      ShrinksMore(r[j].sh, r[k - 1].sh, r[k].sh);
    }
  }

  /** A round of the shutdown drain: its thread completes the waiter it took from the queue. */
  ghost predicate DrainRound(s: State, s2: State) {
    exists t: nat, a :: Moves(s, t, a, s2) && Drains(s.ths[t]) && s.ths[t].Completing? && s.ths[t].atComp.Complete?
  }

  ghost function DrainRounds(r: seq<State>, j: nat, k: nat): nat
    requires j <= k < |r|
    decreases k - j
  {
    if j == k then 0 else DrainRounds(r, j, k - 1) + if DrainRound(r[k - 1], r[k]) then 1 else 0
  }

  lemma DrainRemovesOne(s: State, s2: State)
    requires Inv(s) && DrainRound(s, s2)
    ensures |s2.sh.queue| == |s.sh.queue| - 1
  {
    hide Owned, QueueOk;
    var t: nat, a :| Moves(s, t, a, s2) && Drains(s.ths[t]) && s.ths[t].Completing? && s.ths[t].atComp.Complete?;
    assert Ready(t, s.sh, s.ths[t]);
    CompleteRefused(t, a, s.sh, s.ths[t].atComp, s2.sh, s2.ths[t]);
  }

  /** From closure on, whatever else happens, the drain makes at most as many rounds as waiters
      were queued: each removes one and none is added. */
  lemma {:induction false} DrainEnds(r: seq<State>, j: nat, k: nat)
    requires Run(r) && j <= k < |r| && r[j].sh.closed
    ensures DrainRounds(r, j, k) + |r[k].sh.queue| <= |r[j].sh.queue|
    decreases k - j
  {
    hide Run, Inv, Next, DrainRound;
    if j < k {
      DrainEnds(r, j, k - 1);
      ClosureStays(r, j, k - 1);
      Invariant(r, k - 1);
      RunNext(r, k - 1);
      QueueShrinks(r[k - 1], r[k]);
      if DrainRound(r[k - 1], r[k]) {
        DrainRemovesOne(r[k - 1], r[k]);
      }
    }
  }

  lemma QueueShrinks(s: State, s2: State)
    requires Inv(s) && s.sh.closed && Next(s, s2)
    ensures |s2.sh.queue| <= |s.sh.queue|
  {
    hide Step, Owned, QueueOk;
    if q: nat, a: Action :| Moves(s, q, a, s2) {
      assert Ready(q, s.sh, s.ths[q]);
      StepRefused(q, a, s.sh, s.ths[q], s2.sh, s2.ths[q]);
    }
  }

  // ------------------------------------------------------------------ the source's assertions

  /** The assertions the source makes about slot states and waiter states, at the steps that make them. */
  ghost predicate Asserts(sh: Shared, pc: Pc) {
    match pc
    case Claiming(p) => p.Cas? && WordBits(sh.bits, p.word) == p.snap ==> p.snap != {} && Is(sh, Lowest(p.snap), Idle)
    case Reclaiming(p) =>
      && (p.ReclaimCas? && p.index in p.snap && WordBits(sh.bits, Word(p.index)) == p.snap ==> Is(sh, p.index, Idle))
      && (p.QuarLock? ==> Is(sh, p.index, Borrowed))
    case Taking(p) => p.TakeLock? ==> Is(sh, p.index, Borrowed)
    case Releasing(p) => p.RelPublish? ==> Is(sh, p.index, Borrowed)
    case Handing(p) => p.Handoff? ==> Is(sh, p.index, Borrowed)
    case Completing(p) =>
      && p.node < |sh.nodes|
      && (p.Give? ==> Is(sh, p.index, Borrowed) && sh.nodes[p.node].state == Queued)
      && (p.Complete? ==> sh.nodes[p.node].state == Queued)
      // the frame of a notified thread is still alive
      && (p.Notify? ==> !sh.nodes[p.node].taken && sh.nodes[p.node].pinned)
    case Sweeping(p) => p.SweepBits? ==> forall i :: i in p.left ==> Is(sh, i, Idle)
    case _ => true
  }

  lemma AssertsHold(r: seq<State>, k: nat, t: nat)
    requires Run(r) && k < |r| && t < |r[k].ths|
    ensures Asserts(r[k].sh, r[k].ths[t])
  {
    Invariant(r, k);
    var s := r[k];
    OwnedTags(s, t);
    hide Owned;
    assert Ready(t, s.sh, s.ths[t]);
    match s.ths[t]
    case Claiming(p) =>
      if p.Cas? && WordBits(s.sh.bits, p.word) == p.snap {
        assert Lowest(p.snap) in s.sh.bits;
      }
    case Completing(p) =>
      assert NodeOk(s.sh, p.node);
      assert p.Give? ==> Holds(s.ths[t], p.index);
    case Reclaiming(p) =>
      assert p.QuarLock? ==> Holds(s.ths[t], p.index);
    case Taking(p) =>
      assert p.TakeLock? ==> Holds(s.ths[t], p.index);
    case Releasing(p) =>
      assert p.RelPublish? ==> Holds(s.ths[t], p.index);
    case Handing(p) =>
      assert p.Handoff? ==> Holds(s.ths[t], p.index);
    case Sweeping(p) =>
      assert p.SweepBits? ==> forall i :: i in p.left ==> Swept(s.ths[t], i);
    case _ =>
  }

  /** No waiter times out early or is told of a shutdown that did not happen, and a context past its prepare phase
      has no queued waiter. */
  lemma WaiterSafety(r: seq<State>, k: nat, n: nat)
    requires Run(r) && k < |r| && n < |r[k].sh.nodes|
    ensures var node := r[k].sh.nodes[n];
            && (node.state == TimedOut ==> node.deadline.At? && node.deadline.time <= r[k].sh.now)
            && (node.state == ShutDown ==> r[k].sh.closed)
            && (node.kind.Async? && node.registered && node.kind.context in r[k].sh.stopped ==> node.state != Queued)
            && (node.kind.Sync? ==> node.state != Cancelled)
  {
    Invariant(r, k);
    hide Run, Owned;
    assert NodeOk(r[k].sh, n);
  }
}
