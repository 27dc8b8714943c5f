/**
 Every step keeps the protocol invariant: one lemma per routine of the pool.
 */
module PoolSteps {
  import opened Basics
  import opened PoolModel
  import opened PoolProtocol

  ghost predicate Ready(t: nat, sh: Shared, pc: Pc) {
    && Ok(sh, t, pc) && Contracted(sh, pc) && |sh.states| > 0
    && (sh.owner == t <==> HasMutex(pc))
  }

  /** The gate counts the queued waiters and the thread about to queue. */
  ghost predicate GateMoves(sh: Shared, pc: Pc, sh2: Shared, pc2: Pc) {
    sh2.gate - |sh2.queue| - One(Owes(pc2)) == sh.gate - |sh.queue| - One(Owes(pc))
  }

  ghost predicate Settles(t: nat, sh: Shared, pc: Pc, sh2: Shared, pc2: Pc) {
    && Ready(t, sh2, pc2) && GateMoves(sh, pc, sh2, pc2) && CallKept(t, sh, pc, sh2, pc2)
  }

  ghost predicate Post(t: nat, sh: Shared, pc: Pc, sh2: Shared, pc2: Pc) {
    && Guarantee(t, sh, sh2) && QueueOk(sh2) && Settles(t, sh, pc, sh2, pc2)
  }

  /** Steps that touch neither the nodes nor the queue. */
  ghost predicate Quiet(t: nat, sh: Shared, sh2: Shared) {
    && sh2.nodes == sh.nodes && sh2.queue == sh.queue && sh2.tickets == sh.tickets
    && sh2.stopped == sh.stopped && sh2.stopping == sh.stopping && |sh2.states| == |sh.states|
    && sh.now <= sh2.now && (sh.closed ==> sh2.closed)
    && (sh2.owner == sh.owner || (sh.owner == t && sh2.owner == -1) || (sh.owner == -1 && sh2.owner == t))
    && (sh.owner != -1 && sh.owner != t ==>
          && sh2.owner == sh.owner && sh2.gate == sh.gate && sh2.closed == sh.closed
          && sh2.vacant == sh.vacant && sh2.quarantined == sh.quarantined
          && sh2.usable == sh.usable && sh2.reserved == sh.reserved)
  }

  lemma QuietStep(t: nat, sh: Shared, sh2: Shared)
    requires QueueOk(sh) && Quiet(t, sh, sh2)
    ensures QueueOk(sh2) && Guarantee(t, sh, sh2)
  {
    forall m | 0 <= m < |sh2.nodes| ensures NodeOk(sh2, m) {
      assert NodeOk(sh, m);
    }
  }

  lemma QuietPost(t: nat, sh: Shared, pc: Pc, sh2: Shared, pc2: Pc)
    requires QueueOk(sh) && Quiet(t, sh, sh2) && Settles(t, sh, pc, sh2, pc2)
    ensures Post(t, sh, pc, sh2, pc2)
  {
    hide QueueOk, Quiet, Settles, Guarantee;
    QuietStep(t, sh, sh2);
  }

  /** The same, with one node changed by thread `t`. */
  ghost predicate QuietBut(t: nat, sh: Shared, sh2: Shared, n: nat) {
    && n < |sh.nodes| == |sh2.nodes| && sh2.nodes == sh.nodes[n := sh2.nodes[n]]
    && sh2.stopped == sh.stopped && sh2.stopping == sh.stopping && |sh2.states| == |sh.states|
    && sh2.closed == sh.closed && sh2.vacant == sh.vacant && sh2.quarantined == sh.quarantined
    && sh2.usable == sh.usable && sh2.reserved == sh.reserved && sh2.now == sh.now
    && (sh2.owner == sh.owner || (sh.owner == t && sh2.owner == -1) || (sh.owner == -1 && sh2.owner == t))
    && (sh.owner != -1 && sh.owner != t ==>
          sh2.owner == sh.owner && sh2.queue == sh.queue && sh2.gate == sh.gate && sh2.tickets == sh.tickets)
  }

  lemma NodeStep(t: nat, sh: Shared, sh2: Shared, n: nat)
    requires QuietBut(t, sh, sh2, n) && NodeEvolves(t, sh, sh.nodes[n], sh2.nodes[n])
    ensures Guarantee(t, sh, sh2)
  {
    forall m | 0 <= m < |sh.nodes| ensures NodeEvolves(t, sh, sh.nodes[m], sh2.nodes[m]) {
      if m != n {
        assert sh2.nodes[m] == sh.nodes[m];
      }
    }
  }

  /** Fields that the FIFO does not mention. */
  lemma SameQueueOk(sh: Shared, sh2: Shared)
    requires QueueOk(sh)
    requires sh2.nodes == sh.nodes && sh2.queue == sh.queue && sh2.tickets == sh.tickets
    requires sh2.stopped == sh.stopped && sh2.stopping == sh.stopping && sh2.now == sh.now && sh2.closed == sh.closed
    ensures QueueOk(sh2)
  {
    forall m | 0 <= m < |sh2.nodes| ensures NodeOk(sh2, m) {
      assert NodeOk(sh, m);
    }
  }

  lemma TryLocal(t: nat, a: Action, sh: Shared, p: TryPc, sh2: Shared, pc2: Pc)
    requires Ready(t, sh, Trying(p)) && TryStep(t, a, sh, p, sh2, pc2)
    ensures Quiet(t, sh, sh2) && Settles(t, sh, Trying(p), sh2, pc2)
  {
  }

  lemma AcquireLocal(t: nat, a: Action, sh: Shared, p: AcqPc, sh2: Shared, pc2: Pc)
    requires Ready(t, sh, Acquiring(p)) && AcquireStep(t, a, sh, p, sh2, pc2)
    requires !p.MakeNode?
    ensures Quiet(t, sh, sh2) && Settles(t, sh, Acquiring(p), sh2, pc2)
  {
  }

  lemma MakeNodeLocal(t: nat, a: Action, sh: Shared, p: AcqPc, sh2: Shared, pc2: Pc)
    requires QueueOk(sh) && Ready(t, sh, Acquiring(p)) && AcquireStep(t, a, sh, p, sh2, pc2)
    requires p.MakeNode?
    ensures Post(t, sh, Acquiring(p), sh2, pc2)
  {
    forall m | 0 <= m < |sh2.nodes| ensures NodeOk(sh2, m) {
      if m < |sh.nodes| {
        assert NodeOk(sh, m) && sh2.nodes[m] == sh.nodes[m];
      } else {
        assert forall k :: 0 <= k < |sh.queue| ==> sh.queue[k] < m;
      }
    }
    forall k | 0 <= k < |sh.queue| ensures sh2.nodes[sh.queue[k]] == sh.nodes[sh.queue[k]] {
    }
  }

  lemma ObserveLocal(t: nat, w: nat, seen: set<nat>, sh: Shared, p: ClaimPc, sh2: Shared, pc2: Pc)
    requires Ready(t, sh, Claiming(p)) && Observe(w, seen, p.purpose, sh, sh2, pc2) && p.word == w
    ensures Quiet(t, sh, sh2) && Settles(t, sh, Claiming(p), sh2, pc2)
  {
    match p.purpose
    case ForTry => case ForFast(_) => case ForTake => case ForStrong(_) => case ForServe =>
  }

  lemma ClaimLocal(t: nat, a: Action, sh: Shared, p: ClaimPc, sh2: Shared, pc2: Pc)
    requires Ready(t, sh, Claiming(p)) && ClaimStep(t, a, sh, p, sh2, pc2)
    ensures Quiet(t, sh, sh2) && Settles(t, sh, Claiming(p), sh2, pc2)
  {
    if p.Scan? || a.Fail? || WordBits(sh.bits, p.word) != p.snap {
      ObserveLocal(t, p.word, WordBits(sh.bits, p.word), sh, p, sh2, pc2);
    } else {
      match p.purpose
      case ForTry => case ForFast(_) => case ForTake => case ForStrong(_) => case ForServe =>
    }
  }

  lemma ReleaseLocal(t: nat, a: Action, sh: Shared, p: RelPc, sh2: Shared, pc2: Pc)
    requires Ready(t, sh, Releasing(p)) && ReleaseStep(t, a, sh, p, sh2, pc2)
    ensures Quiet(t, sh, sh2) && Settles(t, sh, Releasing(p), sh2, pc2)
  {
  }

  lemma ReclaimLocal(t: nat, a: Action, sh: Shared, p: RecPc, sh2: Shared, pc2: Pc)
    requires Ready(t, sh, Reclaiming(p)) && ReclaimStep(t, a, sh, p, sh2, pc2)
    ensures Quiet(t, sh, sh2) && Settles(t, sh, Reclaiming(p), sh2, pc2)
  {
  }

  lemma TakeLocal(t: nat, a: Action, sh: Shared, p: TakePc, sh2: Shared, pc2: Pc)
    requires Ready(t, sh, Taking(p)) && TakeStep(t, a, sh, p, sh2, pc2)
    ensures Quiet(t, sh, sh2) && Settles(t, sh, Taking(p), sh2, pc2)
  {
  }

  lemma HandoffDone(t: nat, a: Action, sh: Shared, p: HandPc, sh2: Shared, pc2: Pc)
    requires Ready(t, sh, Handing(p)) && HandoffStep(t, a, sh, p, sh2, pc2)
    requires p.Handoff? && (sh.closed || sh.queue == [])
    ensures Quiet(t, sh, sh2) && Settles(t, sh, Handing(p), sh2, pc2)
  {
    match p.sequel
    case ThenReturn => case ThenServe => case ThenSubmit(_) =>
  }

  lemma HandoffLook(t: nat, a: Action, sh: Shared, p: HandPc, sh2: Shared, pc2: Pc)
    requires QueueOk(sh) && Ready(t, sh, Handing(p)) && HandoffStep(t, a, sh, p, sh2, pc2)
    requires p.Handoff? && !sh.closed && sh.queue != []
    ensures Quiet(t, sh, sh2) && Settles(t, sh, Handing(p), sh2, pc2)
  {
    assert sh.queue[0] in sh.queue;
  }

  lemma ServeLocal(t: nat, a: Action, sh: Shared, p: HandPc, sh2: Shared, pc2: Pc)
    requires Ready(t, sh, Handing(p)) && HandoffStep(t, a, sh, p, sh2, pc2)
    requires !p.Handoff?
    ensures Quiet(t, sh, sh2) && Settles(t, sh, Handing(p), sh2, pc2)
  {
  }

  lemma SweepWords(t: nat, a: Action, sh: Shared, p: SweepPc, sh2: Shared, pc2: Pc)
    requires Ready(t, sh, Sweeping(p)) && SweepStep(t, a, sh, p, sh2, pc2)
    requires p.SweepWord? || p.SweepBits?
    ensures Quiet(t, sh, sh2) && Settles(t, sh, Sweeping(p), sh2, pc2)
  {
  }

  lemma DrainLocal(t: nat, a: Action, sh: Shared, p: SweepPc, sh2: Shared, pc2: Pc)
    requires QueueOk(sh) && Ready(t, sh, Sweeping(p)) && SweepStep(t, a, sh, p, sh2, pc2)
    requires p.Drain? || p.DrainLock?
    ensures Quiet(t, sh, sh2) && Settles(t, sh, Sweeping(p), sh2, pc2)
  {
    if sh.queue != [] {
      assert sh.queue[0] in sh.queue;
    }
  }

  lemma CountLocal(t: nat, a: Action, sh: Shared, pc: Pc, sh2: Shared, pc2: Pc)
    requires pc.Counting? && Ready(t, sh, pc) && CountStep(t, a, sh, pc, sh2, pc2)
    ensures Quiet(t, sh, sh2) && Settles(t, sh, pc, sh2, pc2)
  {
  }

  lemma BeginLocal(t: nat, c: CallAction, sh: Shared, sh2: Shared, pc2: Pc)
    requires Ready(t, sh, Outside) && BeginStep(t, c, sh, sh2, pc2)
    ensures Quiet(t, sh, sh2) && Settles(t, sh, Outside, sh2, pc2)
  {
  }

  lemma TokenLocal(t: nat, c: TokenAction, sh: Shared, sh2: Shared, pc2: Pc)
    requires Ready(t, sh, Outside) && TokenStep(t, c, sh, sh2, pc2)
    ensures Quiet(t, sh, sh2) && Settles(t, sh, Outside, sh2, pc2)
  {
    TokenQuiet(t, c, sh, sh2, pc2);
    hide TokenStep;
  }

  /** A token operation ends at once, or goes on to hand its slot over. */
  lemma TokenQuiet(t: nat, c: TokenAction, sh: Shared, sh2: Shared, pc2: Pc)
    requires TokenStep(t, c, sh, sh2, pc2)
    ensures sh.owner == -1 || c.BeginEmplace? || c.BeginDestroy?
    ensures sh.owner == -1 || (
              sh2.vacant == sh.vacant && sh2.quarantined == sh.quarantined && sh2.reserved == sh.reserved)
    ensures sh2.nodes == sh.nodes && sh2.queue == sh.queue && sh2.tickets == sh.tickets && sh2.gate == sh.gate
    ensures sh2.stopped == sh.stopped && sh2.stopping == sh.stopping && |sh2.states| == |sh.states|
    ensures sh2.now == sh.now && sh2.closed == sh.closed && (sh.owner == -1 || sh2.usable == sh.usable)
    ensures (pc2 == Outside && sh2.owner == sh.owner)
         || (pc2.Handing? && pc2.atHand.Handoff? && pc2.atHand.sequel == ThenReturn && sh.owner == -1 && sh2.owner == t)
  {
  }

  lemma SettleCall(t: nat, sh: Shared, n: nat, st: WaiterState, sh2: Shared, pc2: Pc)
    requires QueueOk(sh) && Deciding(sh, t, n) && Settle(t, sh, n, st, sh2, pc2) && st != Queued && st != Cancelled
    requires (st == TimedOut ==> Expired(sh.nodes[n].deadline, sh.now)) && (st == ShutDown ==> sh.closed)
    requires (sh.owner == t || sh.owner == -1) && |sh.states| > 0
    requires sh.nodes[n].kind.Async? ==> sh.nodes[n].kind.context !in sh.stopping
    ensures Guarantee(t, sh, sh2) && QueueOk(sh2) && Ready(t, sh2, pc2) && !Owes(pc2)
    ensures sh2.gate == sh.gate && sh2.queue == sh.queue && |sh2.nodes| == |sh.nodes|
    ensures CallNode(pc2) == n || sh2.nodes[n].kind.Sync?
  {
    assert NodeOk(sh, n);
    SetNodeQueueOk(sh, n, sh2.nodes[n]);
    SameQueueOk(SetNode(sh, n, sh2.nodes[n]), sh2);
    NodeStep(t, sh, sh2, n);
  }

  lemma RegisterCall(t: nat, a: Action, sh: Shared, p: RegPc, sh2: Shared, pc2: Pc)
    requires QueueOk(sh) && Ready(t, sh, Registering(p)) && RegisterStep(t, a, sh, p, sh2, pc2)
    requires p.RegLock? || p.RegExpired?
    ensures Post(t, sh, Registering(p), sh2, pc2)
  {
    hide QueueOk, Guarantee, Expired, AnswerOf;
    var n := p.node;
    if p.RegLock? && sh.nodes[n].state != Cancelled && sh.closed {
      SettleCall(t, sh, n, ShutDown, sh2, pc2);
    } else if p.RegExpired? && Expired(sh.nodes[n].deadline, sh.now) {
      SettleCall(t, sh, n, TimedOut, sh2, pc2);
    } else {
      QuietStep(t, sh, sh2);
    }
  }

  lemma RegisterGate(t: nat, a: Action, sh: Shared, p: RegPc, sh2: Shared, pc2: Pc)
    requires QueueOk(sh) && Ready(t, sh, Registering(p)) && RegisterStep(t, a, sh, p, sh2, pc2)
    requires p.RegGate? || p.Ungate?
    ensures Post(t, sh, Registering(p), sh2, pc2)
  {
    hide QueueOk, Guarantee;
    QuietStep(t, sh, sh2);
  }

  lemma StrongLocal(t: nat, a: Action, sh: Shared, p: RegPc, sh2: Shared, pc2: Pc)
    requires QueueOk(sh) && Ready(t, sh, Registering(p)) && RegisterStep(t, a, sh, p, sh2, pc2)
    requires p.StrongLate?
    ensures Post(t, sh, Registering(p), sh2, pc2)
  {
    var n := p.node;
    assert NodeOk(sh, n);
    SetNodeQueueOk(sh, n, sh2.nodes[n]);
    SameQueueOk(SetNode(sh, n, sh2.nodes[n]), sh2);
    NodeStep(t, sh, sh2, n);
  }

  lemma PushLocal(t: nat, a: Action, sh: Shared, p: RegPc, sh2: Shared, pc2: Pc)
    requires QueueOk(sh) && Ready(t, sh, Registering(p)) && RegisterStep(t, a, sh, p, sh2, pc2)
    requires p.Push?
    ensures Post(t, sh, Registering(p), sh2, pc2)
  {
    var n := p.node;
    PushQueueOk(sh, n);
    var node := sh.nodes[n].(linked := true, ticket := sh.tickets);
    SameQueueOk(SetNode(sh, n, node).(queue := sh.queue + [n], tickets := sh.tickets + 1), sh2);
    NodeStep(t, sh, sh2, n);
    assert n in sh2.queue;
  }

  lemma ArmLocal(t: nat, a: Action, sh: Shared, p: RegPc, sh2: Shared, pc2: Pc)
    requires QueueOk(sh) && Ready(t, sh, Registering(p)) && RegisterStep(t, a, sh, p, sh2, pc2)
    requires p.ArmTimer?
    ensures Post(t, sh, Registering(p), sh2, pc2)
  {
    var n := p.node;
    if a.Fail? {
      assert NodeOk(sh, n);
      UnlinkQueueOk(sh, t, n, Cancelled);
      SameQueueOk(Unlink(sh, t, n, Cancelled), sh2);
      NodeStep(t, sh, sh2, n);
    } else {
      assert NodeOk(sh, n);
      QuietStep(t, sh, sh2);
    }
  }

  lemma RegisterLocal(t: nat, a: Action, sh: Shared, p: RegPc, sh2: Shared, pc2: Pc)
    requires QueueOk(sh) && Ready(t, sh, Registering(p)) && RegisterStep(t, a, sh, p, sh2, pc2)
    ensures Post(t, sh, Registering(p), sh2, pc2)
  {
    hide *;
    match p
    case StrongLate(_, _) => StrongLocal(t, a, sh, p, sh2, pc2);
    case Push(_) => PushLocal(t, a, sh, p, sh2, pc2);
    case ArmTimer(_) => ArmLocal(t, a, sh, p, sh2, pc2);
    case RegGate(_) => RegisterGate(t, a, sh, p, sh2, pc2);
    case Ungate(_, _) => RegisterGate(t, a, sh, p, sh2, pc2);
    case _ => RegisterCall(t, a, sh, p, sh2, pc2);
  }

  /** A blocked thread past its deadline takes itself out of the queue. */
  lemma GiveUp(t: nat, sh: Shared, n: nat, sh2: Shared)
    requires QueueOk(sh) && n < |sh.nodes| && n in sh.queue && Expired(sh.nodes[n].deadline, sh.now)
    requires sh.nodes[n].owner == t && sh.nodes[n].kind.Sync? && sh.owner == -1
    requires var u := Unlink(sh, t, n, TimedOut); sh2 == SetNode(Reply(u, t, TooLate), n, u.nodes[n].(taken := true))
    ensures QueueOk(sh2) && Guarantee(t, sh, sh2) && |sh2.queue| == |sh.queue| - 1
  {
    assert NodeOk(sh, n);
    UnlinkQueueOk(sh, t, n, TimedOut);
    var u := Unlink(sh, t, n, TimedOut);
    SetNodeQueueOk(u, n, sh2.nodes[n]);
    SameQueueOk(SetNode(u, n, sh2.nodes[n]), sh2);
    NodeStep(t, sh, sh2, n);
  }

  lemma SleepLocal(t: nat, a: Action, sh: Shared, p: SleepPc, sh2: Shared, pc2: Pc)
    requires QueueOk(sh) && Ready(t, sh, Sleeping(p)) && SleepStep(t, a, sh, p, sh2, pc2)
    ensures Post(t, sh, Sleeping(p), sh2, pc2)
  {
    var n := p.node;
    assert NodeOk(sh, n);
    match p
    case Asleep(_) => QuietStep(t, sh, sh2);
    case Awake(_) =>
      if sh.nodes[n].state == Queued && Expired(sh.nodes[n].deadline, sh.now) {
        hide QueueOk, Guarantee;
        GiveUp(t, sh, n, sh2);
      } else {
        QuietStep(t, sh, sh2);
      }
    case Pin(_) =>
      SetNodeQueueOk(sh, n, sh2.nodes[n]);
      SameQueueOk(SetNode(sh, n, sh2.nodes[n]), sh2);
      NodeStep(t, sh, sh2, n);
  }

  lemma CompleteOne(t: nat, sh: Shared, n: nat, st: WaiterState, after: After, sh2: Shared, pc2: Pc)
    requires QueueOk(sh) && sh.owner == t && n < |sh.nodes| && n in sh.queue && AfterOk(sh, t, after)
    requires CompleteNode(t, sh, n, st, after, sh2, pc2)
    requires st != Queued && (st == Cancelled ==> sh.nodes[n].kind.Async?)
    requires (st == TimedOut ==> Expired(sh.nodes[n].deadline, sh.now)) && (st == ShutDown ==> sh.closed)
    ensures Guarantee(t, sh, sh2) && QueueOk(sh2) && Ok(sh2, t, pc2) && sh2.owner == -1 && !HasMutex(pc2) && !Owes(pc2)
    ensures sh2.gate == sh.gate - 1 && |sh2.queue| == |sh.queue| - 1
    ensures |sh2.states| == |sh.states| && |sh2.nodes| == |sh.nodes|
    ensures CallNode(pc2) == AfterNode(after) && sh2.stopping == sh.stopping
    ensures forall m :: 0 <= m < |sh.nodes| ==> sh2.nodes[m].kind == sh.nodes[m].kind
  {
    assert NodeOk(sh, n);
    var u := Unlink(sh, t, n, st);
    UnlinkQueueOk(sh, t, n, st);
    SetNodeQueueOk(u, n, sh2.nodes[n]);
    SameQueueOk(SetNode(u, n, sh2.nodes[n]), sh2);
    NodeStep(t, sh, sh2, n);
  }

  lemma GiveSlot(t: nat, sh: Shared, n: nat, i: nat, h: Sequel, sh2: Shared, pc2: Pc)
    requires QueueOk(sh) && sh.owner == t && n < |sh.nodes| && n in sh.queue && SequelOk(sh, t, h)
    requires CompleteNode(t, SetNode(sh, n, sh.nodes[n].(slot := i)), n, Assigned, AfterGive(h), sh2, pc2)
    ensures Guarantee(t, sh, sh2) && QueueOk(sh2) && Ok(sh2, t, pc2) && sh2.owner == -1 && !HasMutex(pc2) && !Owes(pc2)
    ensures sh2.gate == sh.gate - 1 && |sh2.queue| == |sh.queue| - 1 && |sh2.states| == |sh.states|
    ensures |sh2.nodes| == |sh.nodes| && CallNode(pc2) == AfterNode(AfterGive(h)) && sh2.stopping == sh.stopping
    ensures forall m :: 0 <= m < |sh.nodes| ==> sh2.nodes[m].kind == sh.nodes[m].kind
  {
    var u := SetNode(sh, n, sh.nodes[n].(slot := i));
    assert NodeOk(sh, n);
    SetNodeQueueOk(sh, n, u.nodes[n]);
    CompleteOne(t, u, n, Assigned, AfterGive(h), sh2, pc2);
    NodeStep(t, sh, sh2, n);
  }

  lemma GiveLocal(t: nat, a: Action, sh: Shared, p: CompPc, sh2: Shared, pc2: Pc)
    requires QueueOk(sh) && Ready(t, sh, Completing(p)) && CompleteStep(t, a, sh, p, sh2, pc2)
    requires p.Give?
    ensures Post(t, sh, Completing(p), sh2, pc2)
  {
    GiveSlot(t, sh, p.node, p.index, p.sequel, sh2, pc2);
    hide QueueOk, Guarantee, CompleteNode;
  }

  lemma SelectLocal(t: nat, a: Action, sh: Shared, p: CompPc, sh2: Shared, pc2: Pc)
    requires QueueOk(sh) && Ready(t, sh, Completing(p)) && CompleteStep(t, a, sh, p, sh2, pc2)
    requires p.Complete?
    ensures Post(t, sh, Completing(p), sh2, pc2)
  {
    CompleteOne(t, sh, p.node, p.outcome, p.after, sh2, pc2);
    hide QueueOk, Guarantee, CompleteNode;
  }

  lemma NotifyLocal(t: nat, a: Action, sh: Shared, p: CompPc, sh2: Shared, pc2: Pc)
    requires QueueOk(sh) && Ready(t, sh, Completing(p)) && CompleteStep(t, a, sh, p, sh2, pc2)
    requires p.Notify? || p.Submit?
    ensures Post(t, sh, Completing(p), sh2, pc2)
  {
    var n := p.node;
    assert NodeOk(sh, n);
    SetNodeQueueOk(sh, n, sh2.nodes[n]);
    NodeStep(t, sh, sh2, n);
    match p.after
    case AfterRetry(_, _) =>
    case AfterGive(h) => match h { case ThenReturn => case ThenServe => case ThenSubmit(_) => }
    case AfterDrain =>
    case AfterSelect =>
  }

  lemma SameNodes(t: nat, sh: Shared, sh2: Shared)
    requires QueueOk(sh)
    requires sh2 == sh.(stopping := sh2.stopping, stopped := sh2.stopped)
    requires sh.stopping <= sh2.stopping && sh.stopped <= sh2.stopped <= sh2.stopping
    requires forall c :: c in sh2.stopped && c !in sh.stopped ==>
               forall m :: 0 <= m < |sh.nodes| && sh.nodes[m].kind == Async(c) && sh.nodes[m].registered ==>
                 sh.nodes[m].state != Queued
    ensures QueueOk(sh2) && Guarantee(t, sh, sh2)
  {
    forall m | 0 <= m < |sh2.nodes| ensures NodeOk(sh2, m) {
      assert NodeOk(sh, m);
    }
  }

  lemma SettleNode(t: nat, a: Action, sh: Shared, p: SettlePc, sh2: Shared, pc2: Pc)
    requires QueueOk(sh) && Ready(t, sh, Settling(p)) && SettleStep(t, a, sh, p, sh2, pc2)
    requires !p.PrepareAbandon?
    ensures Post(t, sh, Settling(p), sh2, pc2)
  {
    var n := p.node;
    assert NodeOk(sh, n);
    if sh2.nodes != sh.nodes {
      SetNodeQueueOk(sh, n, sh2.nodes[n]);
      NodeStep(t, sh, sh2, n);
    } else {
      QuietStep(t, sh, sh2);
    }
  }

  lemma CancelQueued(t: nat, sh: Shared, c: nat, n: nat)
    requires QueueOk(sh) && n < |sh.nodes| && n in sh.queue && sh.nodes[n].kind == Async(c) && sh.owner == -1
    ensures var sh2 := Unlink(sh, t, n, Cancelled);
            && Guarantee(t, sh, sh2) && QueueOk(sh2) && |sh2.nodes| == |sh.nodes| && |sh2.queue| == |sh.queue| - 1
            && forall m :: m in sh2.queue <==> m in sh.queue && m != n
  {
    var sh2 := Unlink(sh, t, n, Cancelled);
    UnlinkQueueOk(sh, t, n, Cancelled);
    assert NodeOk(sh, n);
    NodeStep(t, sh, sh2, n);
  }

  lemma PrepareSkips(t: nat, a: Action, sh: Shared, p: SettlePc, sh2: Shared, pc2: Pc)
    requires QueueOk(sh) && Ready(t, sh, Settling(p)) && SettleStep(t, a, sh, p, sh2, pc2)
    requires p.PrepareAbandon? && Decided(sh, p.context)
    requires p.node < |sh.nodes| && p.node in sh.queue ==>
               sh.nodes[p.node].kind != Async(p.context) || !sh.nodes[p.node].registered
    ensures Post(t, sh, Settling(p), sh2, pc2)
  {
    assert p.node < |sh.nodes| ==> NodeOk(sh, p.node);
    SameNodes(t, sh, sh2);
    hide QueueOk, Guarantee;
  }

  lemma PrepareLocal(t: nat, a: Action, sh: Shared, p: SettlePc, sh2: Shared, pc2: Pc)
    requires QueueOk(sh) && Ready(t, sh, Settling(p)) && SettleStep(t, a, sh, p, sh2, pc2)
    requires p.PrepareAbandon? && Decided(sh, p.context)
    ensures Post(t, sh, Settling(p), sh2, pc2)
  {
    var c, n := p.context, p.node;
    if n < |sh.nodes| && n in sh.queue && sh.nodes[n].kind == Async(c) && sh.nodes[n].registered {
      hide QueueOk, Guarantee, Decided;
      CancelQueued(t, sh, c, n);
    } else {
      PrepareSkips(t, a, sh, p, sh2, pc2);
      hide QueueOk, Guarantee, Settles, Decided, SettleStep;
    }
  }

  lemma EventLocal(t: nat, c: EventAction, sh: Shared, sh2: Shared, pc2: Pc)
    requires QueueOk(sh) && Ready(t, sh, Outside) && EventStep(t, c, sh, sh2, pc2)
    ensures Post(t, sh, Outside, sh2, pc2)
  {
    match c
    case BeginSelect(n, st) => QuietStep(t, sh, sh2);
    case BeginDeliver(n) =>
      assert NodeOk(sh, n);
      SetNodeQueueOk(sh, n, sh2.nodes[n]);
      SameQueueOk(SetNode(sh, n, sh2.nodes[n]), sh2);
      NodeStep(t, sh, sh2, n);
    case BeginStop(_) => SameNodes(t, sh, sh2);
    case BeginAbandon(n) =>
      assert NodeOk(sh, n);
      SetNodeQueueOk(sh, n, sh2.nodes[n]);
      NodeStep(t, sh, sh2, n);
  }
}
