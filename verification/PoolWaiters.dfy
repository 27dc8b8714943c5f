/**
 Waiters. A node whose outcome is decided but not yet handed over is attended by a thread
 about to notify it or to submit its completion, so no completion is lost; and once a node
 has left the queue its outcome never changes.
 */
module PoolWaiters {
  import opened PoolModel
  import opened PoolProtocol
  import opened PoolSteps
  import opened PoolInvariant

  /** A blocked thread not yet notified of its outcome, or an asynchronous call that is
      neither queued, nor posted, nor left to the shutdown of its context. */
  ghost predicate Needs(sh: Shared, n: nat)
    requires n < |sh.nodes|
  {
    var node := sh.nodes[n];
    match node.kind
    case Sync => node.linked && node.state != Queued && !node.taken && !node.notified
    case Async(c) => node.registered && !node.posted && c !in sh.stopping && !(node.linked && node.state == Queued)
  }

  /** Thread `t` selected node `n` and has yet to hand it over, or is still initiating it. */
  ghost predicate Attends(t: nat, pc: Pc, node: Node, n: nat) {
    || (node.selector == t && pc.Completing? && (pc.atComp.Notify? || pc.atComp.Submit?) && pc.atComp.node == n)
    || (node.owner == t && CallNode(pc) == n)
  }

  ghost predicate Attended(s: State, n: nat)
    requires n < |s.sh.nodes|
  {
    Needs(s.sh, n) ==> exists t :: 0 <= t < |s.ths| && Attends(t, s.ths[t], s.sh.nodes[n], n)
  }

  ghost predicate AllAttended(s: State) {
    forall n :: 0 <= n < |s.sh.nodes| ==> Attended(s, n)
  }

  ghost predicate AttendMoves(t: nat, sh: Shared, pc: Pc, sh2: Shared, pc2: Pc, n: nat) {
    && (n < |sh2.nodes| && Needs(sh2, n) && (n >= |sh.nodes| || !Needs(sh, n) || Attends(t, pc, sh.nodes[n], n)) ==>
          Attends(t, pc2, sh2.nodes[n], n))
    // only a handoff assigns a slot to a node of the queue
    && (n < |sh.nodes| && n < |sh2.nodes| && sh.nodes[n].linked && sh.nodes[n].state == Queued
        && sh2.nodes[n].state == Assigned ==>
          pc.Completing? && pc.atComp.Give? && pc.atComp.node == n && pc.atComp.index == sh2.nodes[n].slot)
    // a node joins the queue undecided
    && (n < |sh2.nodes| && sh2.nodes[n].linked && (n >= |sh.nodes| || !sh.nodes[n].linked) ==>
          sh2.nodes[n].state == Queued)
  }

  /** A step that leaves the nodes alone keeps its call at hand. */
  lemma SameNodesAttend(t: nat, sh: Shared, pc: Pc, sh2: Shared, pc2: Pc, n: nat)
    requires sh2.nodes == sh.nodes && sh2.stopping == sh.stopping && !pc.Completing?
    requires CallNode(pc) == -1 || CallNode(pc2) == CallNode(pc)
    ensures AttendMoves(t, sh, pc, sh2, pc2, n)
  {
  }

  lemma PlainAttend(t: nat, a: Action, sh: Shared, pc: Pc, sh2: Shared, pc2: Pc, n: nat)
    requires pc.Trying? || pc.Releasing? || pc.Reclaiming? || pc.Taking? || pc.Sweeping? || pc.Counting?
    requires Step(t, a, sh, pc, sh2, pc2)
    ensures AttendMoves(t, sh, pc, sh2, pc2, n)
  {
    hide AttendMoves;
    SameNodesAttend(t, sh, pc, sh2, pc2, n);
  }

  lemma ClaimAttend(t: nat, a: Action, sh: Shared, p: ClaimPc, sh2: Shared, pc2: Pc, n: nat)
    requires ClaimStep(t, a, sh, p, sh2, pc2)
    ensures AttendMoves(t, sh, Claiming(p), sh2, pc2, n)
  {
    hide AttendMoves;
    match p.purpose
    case ForTry => SameNodesAttend(t, sh, Claiming(p), sh2, pc2, n);
    case ForFast(_) => SameNodesAttend(t, sh, Claiming(p), sh2, pc2, n);
    case ForTake => SameNodesAttend(t, sh, Claiming(p), sh2, pc2, n);
    case ForStrong(_) => SameNodesAttend(t, sh, Claiming(p), sh2, pc2, n);
    case ForServe => SameNodesAttend(t, sh, Claiming(p), sh2, pc2, n);
  }

  lemma HandoffAttend(t: nat, a: Action, sh: Shared, p: HandPc, sh2: Shared, pc2: Pc, n: nat)
    requires HandoffStep(t, a, sh, p, sh2, pc2)
    ensures AttendMoves(t, sh, Handing(p), sh2, pc2, n)
  {
    hide AttendMoves;
    if p.Handoff? {
      match p.sequel
      case ThenReturn => SameNodesAttend(t, sh, Handing(p), sh2, pc2, n);
      case ThenServe => SameNodesAttend(t, sh, Handing(p), sh2, pc2, n);
      case ThenSubmit(_) => SameNodesAttend(t, sh, Handing(p), sh2, pc2, n);
    } else {
      SameNodesAttend(t, sh, Handing(p), sh2, pc2, n);
    }
  }

  lemma AcquireAttend(t: nat, a: Action, sh: Shared, p: AcqPc, sh2: Shared, pc2: Pc, n: nat)
    requires AcquireStep(t, a, sh, p, sh2, pc2)
    ensures AttendMoves(t, sh, Acquiring(p), sh2, pc2, n)
  {
    if p.MakeNode? {
      assert n < |sh.nodes| ==> sh2.nodes[n] == sh.nodes[n];
    }
  }

  lemma StrongAttend(t: nat, a: Action, sh: Shared, p: RegPc, sh2: Shared, pc2: Pc, n: nat)
    requires p.StrongLate?
    requires RegisterStep(t, a, sh, p, sh2, pc2) && RegisterOk(sh, t, p)
    ensures AttendMoves(t, sh, Registering(p), sh2, pc2, n)
  {
  }

  lemma EndCallAttend(t: nat, a: Action, sh: Shared, p: RegPc, sh2: Shared, pc2: Pc, n: nat)
    requires p.RegLock? || p.RegExpired?
    requires RegisterStep(t, a, sh, p, sh2, pc2) && RegisterOk(sh, t, p)
    ensures AttendMoves(t, sh, Registering(p), sh2, pc2, n)
  {
  }

  lemma QueueCallAttend(t: nat, a: Action, sh: Shared, p: RegPc, sh2: Shared, pc2: Pc, n: nat)
    requires p.Push? || p.ArmTimer?
    requires RegisterStep(t, a, sh, p, sh2, pc2) && RegisterOk(sh, t, p) && QueueOk(sh)
    ensures AttendMoves(t, sh, Registering(p), sh2, pc2, n)
  {
    assert NodeOk(sh, p.node);
  }

  lemma RegisterAttend(t: nat, a: Action, sh: Shared, p: RegPc, sh2: Shared, pc2: Pc, n: nat)
    requires RegisterStep(t, a, sh, p, sh2, pc2) && Ok(sh, t, Registering(p)) && QueueOk(sh)
    ensures AttendMoves(t, sh, Registering(p), sh2, pc2, n)
  {
    hide AttendMoves, QueueOk, RegisterOk;
    if p.RegGate? || p.Ungate? {
      SameNodesAttend(t, sh, Registering(p), sh2, pc2, n);
    } else if p.Push? || p.ArmTimer? {
      QueueCallAttend(t, a, sh, p, sh2, pc2, n);
    } else if p.StrongLate? {
      StrongAttend(t, a, sh, p, sh2, pc2, n);
    } else {
      EndCallAttend(t, a, sh, p, sh2, pc2, n);
    }
  }

  lemma SleepAttend(t: nat, a: Action, sh: Shared, p: SleepPc, sh2: Shared, pc2: Pc, n: nat)
    requires SleepStep(t, a, sh, p, sh2, pc2) && Ok(sh, t, Sleeping(p))
    ensures AttendMoves(t, sh, Sleeping(p), sh2, pc2, n)
  {
  }

  lemma CompleteAttend(t: nat, a: Action, sh: Shared, p: CompPc, sh2: Shared, pc2: Pc, n: nat)
    requires CompleteStep(t, a, sh, p, sh2, pc2) && Ok(sh, t, Completing(p)) && QueueOk(sh)
    ensures AttendMoves(t, sh, Completing(p), sh2, pc2, n)
  {
    assert NodeOk(sh, p.node);
  }

  lemma SettleAttend(t: nat, a: Action, sh: Shared, p: SettlePc, sh2: Shared, pc2: Pc, n: nat)
    requires SettleStep(t, a, sh, p, sh2, pc2) && Ok(sh, t, Settling(p)) && QueueOk(sh)
    ensures AttendMoves(t, sh, Settling(p), sh2, pc2, n)
  {
    assert p.node < |sh.nodes| ==> NodeOk(sh, p.node);
  }

  lemma EventAttend(t: nat, c: EventAction, sh: Shared, sh2: Shared, pc2: Pc, n: nat)
    requires EventStep(t, c, sh, sh2, pc2)
    ensures AttendMoves(t, sh, Outside, sh2, pc2, n)
  {
  }

  lemma OutsideAttend(t: nat, a: Action, sh: Shared, sh2: Shared, pc2: Pc, n: nat)
    requires OutsideStep(t, a, sh, sh2, pc2)
    ensures AttendMoves(t, sh, Outside, sh2, pc2, n)
  {
    hide AttendMoves, EventStep;
    if a.Event? {
      EventAttend(t, a.event, sh, sh2, pc2, n);
    } else {
      SameNodesAttend(t, sh, Outside, sh2, pc2, n);
    }
  }

  lemma StepAttend(t: nat, a: Action, sh: Shared, pc: Pc, sh2: Shared, pc2: Pc, n: nat)
    requires Step(t, a, sh, pc, sh2, pc2) && Ok(sh, t, pc) && QueueOk(sh)
    ensures AttendMoves(t, sh, pc, sh2, pc2, n)
  {
    hide Ok, QueueOk, AttendMoves, OutsideStep, TryStep, AcquireStep, ClaimStep, RegisterStep,
         SleepStep, ReleaseStep, ReclaimStep, TakeStep, HandoffStep, CompleteStep, SweepStep, SettleStep, CountStep;
    match pc
    case Outside => OutsideAttend(t, a, sh, sh2, pc2, n);
    case Acquiring(p) => AcquireAttend(t, a, sh, p, sh2, pc2, n);
    case Claiming(p) => ClaimAttend(t, a, sh, p, sh2, pc2, n);
    case Registering(p) => RegisterAttend(t, a, sh, p, sh2, pc2, n);
    case Sleeping(p) => SleepAttend(t, a, sh, p, sh2, pc2, n);
    case Handing(p) => HandoffAttend(t, a, sh, p, sh2, pc2, n);
    case Completing(p) => CompleteAttend(t, a, sh, p, sh2, pc2, n);
    case Settling(p) => SettleAttend(t, a, sh, p, sh2, pc2, n);
    case _ => PlainAttend(t, a, sh, pc, sh2, pc2, n);
  }

  lemma AttendedMove(s: State, t: nat, a: Action, s2: State, n: nat)
    requires Protocol(s) && AllAttended(s) && Moves(s, t, a, s2) && Guarantee(t, s.sh, s2.sh) && n < |s2.sh.nodes|
    ensures Attended(s2, n)
  {
    hide Step, QueueOk, Ok, Contracted, CallHasThread;
    var pc, pc2 := s.ths[t], s2.ths[t];
    assert Ready(t, s.sh, pc);
    StepAttend(t, a, s.sh, pc, s2.sh, pc2, n);
    if Needs(s2.sh, n) && !Attends(t, pc2, s2.sh.nodes[n], n) {
      assert Attended(s, n) && NodeEvolves(t, s.sh, s.sh.nodes[n], s2.sh.nodes[n]);
      var q :| 0 <= q < |s.ths| && Attends(q, s.ths[q], s.sh.nodes[n], n);
      assert q != t && s2.ths[q] == s.ths[q] && Ready(q, s.sh, s.ths[q]);
      AttendsStill(q, s.sh, s.ths[q], s.sh.nodes[n], s2.sh.nodes[n], n);
    }
  }

  /** The selector and the owner of a node do not change under an attending thread. */
  lemma AttendsStill(q: nat, sh: Shared, pc: Pc, was: Node, got: Node, n: nat)
    requires n < |sh.nodes| && was == sh.nodes[n] && Attends(q, pc, was, n) && Ok(sh, q, pc)
    requires got.owner == was.owner && (was.state != Queued ==> got.selector == was.selector)
    ensures Attends(q, pc, got, n)
  {
  }
}
