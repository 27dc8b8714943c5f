/**
 The protocol part of the pool's invariant: mutual exclusion, the waiter FIFO and its
 gate, and what every program counter knows about the node it works on.
 */
module PoolProtocol {
  import opened Basics
  import opened PoolModel

  ghost predicate HasMutex(pc: Pc) {
    match pc
    case Claiming(p) => p.purpose.ForStrong? || p.purpose.ForServe?
    case Registering(p) => !p.RegLock?
    case Handing(p) => p.Handoff? || p.ServeLoop?
    case Completing(p) => p.Give? || p.Complete?
    case Sweeping(p) => !p.DrainLock?
    case Counting(_, _, _) => true
    case _ => false
  }

  /** A thread that incremented the gate and has neither queued nor backed out. */
  ghost predicate Owes(pc: Pc) {
    match pc
    case Claiming(p) => p.purpose.ForStrong?
    case Registering(p) => p.Ungate? || p.Push?
    case _ => false
  }

  // ------------------------------------------------------------------ shared facts

  ghost predicate NodeOk(sh: Shared, n: nat)
    requires n < |sh.nodes|
  {
    var node := sh.nodes[n];
    && (n in sh.queue <==> node.linked && node.state == Queued)
    && (node.pinned ==> node.kind.Sync? && node.linked && node.state != Queued)
    && (node.kind.Sync? ==> !node.registered && !node.posted && node.state != Cancelled)
    && (node.registered ==> !node.taken)
    && (node.posted ==> node.registered && node.state != Queued)
    && (node.linked ==> node.ticket < sh.tickets)
    && (node.state == TimedOut ==> Expired(node.deadline, sh.now)) && (node.state == ShutDown ==> sh.closed)
    && (n in sh.queue ==> !node.taken && (node.kind.Async? ==> node.registered))
    && (node.registered && node.kind.Async? && node.kind.context in sh.stopped ==> node.state != Queued)
  }

  /** The FIFO holds distinct nodes in registration order. */
  ghost predicate QueueOk(sh: Shared) {
    && Ordered(sh.queue, sh.nodes)
    && (forall n :: 0 <= n < |sh.nodes| ==> NodeOk(sh, n))
    && sh.stopped <= sh.stopping
  }

  // ------------------------------------------------------------------ what a program counter knows

  /** A call still deciding whether to queue: only its own thread may touch the node. */
  ghost predicate Deciding(sh: Shared, t: nat, n: nat) {
    && n < |sh.nodes|
    && var node := sh.nodes[n];
       node.owner == t && !node.linked && node.state == Queued && !node.taken && !node.posted && !node.pinned
       && (node.kind.Async? ==> node.registered)
  }

  /** An asynchronous call that ended without queueing, its result not yet posted. */
  ghost predicate Settled(sh: Shared, t: nat, n: nat) {
    && n < |sh.nodes|
    && var node := sh.nodes[n];
       node.kind.Async? && node.owner == t && !node.linked && node.state != Queued && !node.taken && !node.posted
       && node.registered
  }

  ghost predicate SequelOk(sh: Shared, t: nat, h: Sequel) {
    h.ThenSubmit? ==> Settled(sh, t, h.node)
  }

  ghost predicate AfterOk(sh: Shared, t: nat, after: After) {
    match after
    case AfterRetry(_, h) => SequelOk(sh, t, h)
    case AfterGive(h) => SequelOk(sh, t, h)
    case AfterDrain => sh.closed
    case AfterSelect => true
  }

  ghost predicate ClaimOk(sh: Shared, t: nat, p: ClaimPc) {
    && p.word < Words(|sh.states|) && (p.Cas? ==> p.snap != {})
    && (p.purpose.ForStrong? ==> Deciding(sh, t, p.purpose.node) && !sh.closed)
  }

  ghost predicate RegisterOk(sh: Shared, t: nat, p: RegPc) {
    match p
    case RegLock(n) => Deciding(sh, t, n) || (Settled(sh, t, n) && sh.nodes[n].state == Cancelled)
    case ArmTimer(n) =>
      && n < |sh.nodes| && n in sh.queue && !sh.closed
      && sh.nodes[n].owner == t && sh.nodes[n].kind.Async? && sh.nodes[n].registered && !sh.nodes[n].posted
    case _ => Deciding(sh, t, p.node) && !sh.closed
  }

  ghost predicate SleepOk(sh: Shared, t: nat, p: SleepPc) {
    && p.node < |sh.nodes|
    && var node := sh.nodes[p.node];
       && node.kind.Sync? && node.owner == t && node.linked && !node.taken
       && (p.Pin? ==> node.state != Queued)
  }

  ghost predicate HandoffOk(sh: Shared, t: nat, p: HandPc) {
    p.Handoff? || p.HandoffLock? ==> SequelOk(sh, t, p.sequel)
  }

  ghost predicate CompleteOk(sh: Shared, t: nat, p: CompPc) {
    && p.node < |sh.nodes|
    && var node := sh.nodes[p.node];
       match p
       case Give(n, _, h) => sh.queue != [] && n == sh.queue[0] && !sh.closed && SequelOk(sh, t, h)
       case Complete(n, st, after) =>
         && n in sh.queue && AfterOk(sh, t, after)
         && (|| (st == TimedOut && Expired(node.deadline, sh.now))
             || (st == ShutDown && after == AfterDrain)
             || (st == Cancelled && node.kind.Async?))
       case Notify(n, after) =>
         && AfterOk(sh, t, after)
         && node.kind.Sync? && node.linked && node.state != Queued && node.pinned && node.selector == t && !node.taken
       case Submit(n, after) =>
         && AfterOk(sh, t, after)
         && node.kind.Async? && node.linked && node.state != Queued && node.selector == t
         && (node.kind.context !in sh.stopped ==> node.registered && !node.posted && !node.taken)
  }

  ghost predicate SweepOk(sh: Shared, p: SweepPc) {
    sh.closed && (p.SweepWord? || p.SweepBits? ==> p.word < Words(|sh.states|))
  }

  ghost predicate SettleOk(sh: Shared, t: nat, p: SettlePc) {
    match p
    case SubmitInit(n) => Settled(sh, t, n)
    case Unregister(n) =>
      && n < |sh.nodes|
      && var node := sh.nodes[n];
         node.kind.Async? && node.owner == t && node.linked && node.state == Cancelled && node.selector == t
         && node.registered && !node.posted && !node.taken
    case SelectLock(n, st) =>
      && n < |sh.nodes| && sh.nodes[n].kind.Async?
      && (st == Cancelled || (st == TimedOut && sh.nodes[n].linked && Expired(sh.nodes[n].deadline, sh.now)))
    case PrepareAbandon(c, k) =>
      && c in sh.stopping && k <= |sh.nodes|
      && forall n :: 0 <= n < k && sh.nodes[n].kind == Async(c) && sh.nodes[n].registered ==>
           sh.nodes[n].state != Queued
  }

  ghost predicate Ok(sh: Shared, t: nat, pc: Pc) {
    match pc
    case Claiming(p) => ClaimOk(sh, t, p)
    case Registering(p) => RegisterOk(sh, t, p)
    case Sleeping(p) => SleepOk(sh, t, p)
    case Handing(p) => HandoffOk(sh, t, p)
    case Completing(p) => CompleteOk(sh, t, p)
    case Sweeping(p) => SweepOk(sh, p)
    case Settling(p) => SettleOk(sh, t, p)
    case _ => true
  }

  /** Asio's contract: no call is initiated on a context that is shutting down. */
  ghost predicate Contracted(sh: Shared, pc: Pc) {
    CallKind(sh, pc).Async? ==> CallKind(sh, pc).context !in sh.stopping
  }

  /** Every registered waiter of context `c` has queued or ended. */
  ghost predicate Decided(sh: Shared, c: nat) {
    forall n ::
      0 <= n < |sh.nodes| && sh.nodes[n].kind == Async(c) && sh.nodes[n].registered && sh.nodes[n].state == Queued ==>
        sh.nodes[n].linked
  }

  /** A call leaves its thread only once it has queued or ended. */
  ghost predicate CallKept(t: nat, sh: Shared, pc: Pc, sh2: Shared, pc2: Pc) {
    && (0 <= CallNode(pc) < |sh.nodes| <= |sh2.nodes| && CallNode(pc2) != CallNode(pc) ==>
          var node := sh2.nodes[CallNode(pc)];
          !(node.kind.Async? && node.registered && node.state == Queued && !node.linked))
    && (|sh2.nodes| > |sh.nodes| ==>
          |sh2.nodes| == |sh.nodes| + 1 && CallNode(pc2) == |sh.nodes| && sh2.nodes[|sh.nodes|].owner == t)
  }

  // ------------------------------------------------------------------ what a step of thread t may do to the others

  ghost predicate NodeEvolves(t: nat, sh: Shared, was: Node, got: Node) {
    && got.kind == was.kind && got.deadline == was.deadline && got.owner == was.owner
    && (was.linked ==> got.linked) && (was.taken ==> got.taken)
    && (was.state != Queued ==> got.state == was.state && got.slot == was.slot && got.selector == was.selector)
    && (was.linked ==> got.ticket == was.ticket) && (got.registered ==> was.registered)
    && (was.kind.Sync? ==> got.posted == was.posted)
    && (t != was.owner ==>
          && got.linked == was.linked
          && (was.kind.Sync? ==> got.taken == was.taken)
          && (!was.linked ==>
                && got.pinned == was.pinned && got.slot == was.slot
                && (got.state == was.state || (was.kind.Async? && was.state == Queued && got.state == Cancelled))
                && (was.kind.Async? && !was.posted && was.kind.context !in sh.stopped ==>
                      got.posted == was.posted && got.registered == was.registered && got.taken == was.taken)))
    && (t != was.selector && was.state != Queued && was.linked ==>
          && (was.pinned ==> got.pinned && got.taken == was.taken)
          && (was.kind.Async? && !was.posted && was.kind.context !in sh.stopped ==>
                got.posted == was.posted && got.registered == was.registered && got.taken == was.taken))
    && (sh.owner != -1 && sh.owner != t ==>
          got.state == was.state && got.linked == was.linked && got.slot == was.slot && got.ticket == was.ticket)
    && (was.kind.Async? && !was.posted && was.kind.context !in sh.stopped && was.state == Queued && t != was.owner ==>
          got.posted == was.posted && got.registered == was.registered && got.taken == was.taken)
  }

  ghost predicate Guarantee(t: nat, sh: Shared, sh2: Shared) {
    && |sh2.states| == |sh.states| && |sh.nodes| <= |sh2.nodes|
    && sh.now <= sh2.now && (sh.closed ==> sh2.closed) && sh.stopping <= sh2.stopping && sh.stopped <= sh2.stopped
    && (sh.owner != -1 && sh.owner != t ==>
          && sh2.owner == sh.owner && sh2.queue == sh.queue && sh2.gate == sh.gate && sh2.closed == sh.closed
          && sh2.vacant == sh.vacant && sh2.quarantined == sh.quarantined
          && sh2.usable == sh.usable && sh2.reserved == sh.reserved && sh2.tickets == sh.tickets)
    && (sh2.owner == sh.owner || (sh.owner == t && sh2.owner == -1) || (sh.owner == -1 && sh2.owner == t))
    && forall n :: 0 <= n < |sh.nodes| ==> NodeEvolves(t, sh, sh.nodes[n], sh2.nodes[n])
  }

  // ------------------------------------------------------------------ removal from the FIFO

  ghost predicate Ordered(q: seq<nat>, nodes: seq<Node>) {
    && (forall k :: 0 <= k < |q| ==> q[k] < |nodes|)
    && (forall j, k :: 0 <= j < k < |q| ==> nodes[q[j]].ticket < nodes[q[k]].ticket)
  }

  lemma CutOrdered(q: seq<nat>, k: nat, nodes: seq<Node>)
    requires k < |q| && Ordered(q, nodes)
    ensures Ordered(q[..k] + q[k + 1..], nodes)
  {
  }

  lemma WithoutOrdered(q: seq<nat>, n: nat, nodes: seq<Node>)
    requires n in q && Ordered(q, nodes)
    ensures Ordered(Without(q, n), nodes)
  {
    var k := WithoutIs(q, n);
    CutOrdered(q, k, nodes);
  }

  lemma UnlinkQueueOk(sh: Shared, t: nat, n: nat, st: WaiterState)
    requires QueueOk(sh) && n < |sh.nodes| && n in sh.queue && st != Queued
    requires (st == TimedOut ==> Expired(sh.nodes[n].deadline, sh.now)) && (st == ShutDown ==> sh.closed)
    requires st == Cancelled ==> sh.nodes[n].kind.Async?
    ensures QueueOk(Unlink(sh, t, n, st))
    ensures |Unlink(sh, t, n, st).queue| == |sh.queue| - 1
    ensures forall m :: m in Unlink(sh, t, n, st).queue <==> m in sh.queue && m != n
  {
    var sh2 := Unlink(sh, t, n, st);
    WithoutMembers(sh.queue, n);
    WithoutOrdered(sh.queue, n, sh.nodes);
    forall m | 0 <= m < |sh2.nodes| ensures NodeOk(sh2, m) {
      assert NodeOk(sh, m);
    }
    forall m | 0 <= m < |sh.nodes| ensures sh2.nodes[m].ticket == sh.nodes[m].ticket {
    }
  }

  /** A node whose change leaves its place in the queue alone keeps the FIFO well formed. */
  lemma SetNodeQueueOk(sh: Shared, n: nat, node: Node)
    requires QueueOk(sh) && n < |sh.nodes|
    requires node.linked == sh.nodes[n].linked && node.ticket == sh.nodes[n].ticket
    requires NodeOk(SetNode(sh, n, node), n)
    ensures QueueOk(SetNode(sh, n, node))
  {
    var sh2 := SetNode(sh, n, node);
    forall m | 0 <= m < |sh2.nodes| ensures NodeOk(sh2, m) {
      assert NodeOk(sh, m);
    }
  }

  lemma PushQueueOk(sh: Shared, n: nat)
    requires QueueOk(sh) && n < |sh.nodes|
    requires !sh.nodes[n].linked && sh.nodes[n].state == Queued && !sh.nodes[n].taken
    requires sh.nodes[n].kind.Async? ==> sh.nodes[n].registered
    ensures QueueOk(SetNode(sh, n, sh.nodes[n].(linked := true, ticket := sh.tickets))
                    .(queue := sh.queue + [n], tickets := sh.tickets + 1))
  {
    var sh2 := SetNode(sh, n, sh.nodes[n].(linked := true, ticket := sh.tickets))
               .(queue := sh.queue + [n], tickets := sh.tickets + 1);
    assert NodeOk(sh, n);
    forall m | 0 <= m < |sh2.nodes| ensures NodeOk(sh2, m) {
      assert NodeOk(sh, m);
      assert m in sh2.queue <==> m in sh.queue || m == n;
    }
    forall j, l | 0 <= j < l < |sh2.queue|
      ensures sh2.nodes[sh2.queue[j]].ticket < sh2.nodes[sh2.queue[l]].ticket
    {
      assert sh2.queue[j] == sh.queue[j] && NodeOk(sh, sh.queue[j]);
      assert sh.queue[j] in sh.queue && n !in sh.queue;
      if l < |sh.queue| {
        assert sh2.queue[l] == sh.queue[l] && sh.queue[l] in sh.queue;
      }
    }
  }
}
