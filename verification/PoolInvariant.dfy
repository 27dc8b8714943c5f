/**
 The protocol invariant holds in every reachable state of the pool.
 */
module PoolInvariant {
  import opened Basics
  import opened PoolModel
  import opened PoolProtocol
  import opened PoolSteps

  /** Only the mutex holder can have counted itself in the gate before queueing. */
  ghost function Owed(s: State): nat {
    if 0 <= s.sh.owner < |s.ths| then One(Owes(s.ths[s.sh.owner])) else 0
  }

  /** An undecided asynchronous call is being initiated by its own thread. */
  ghost predicate CallHasThread(s: State, n: nat)
    requires n < |s.sh.nodes|
  {
    var node := s.sh.nodes[n];
    node.kind.Async? && node.registered && node.state == Queued && !node.linked ==>
      node.owner < |s.ths| && CallNode(s.ths[node.owner]) == n
  }

  ghost predicate Protocol(s: State) {
    && |s.sh.states| > 0 && QueueOk(s.sh) && -1 <= s.sh.owner < |s.ths|
    && (forall t :: 0 <= t < |s.ths| ==> Ready(t, s.sh, s.ths[t]))
    && (forall n :: 0 <= n < |s.sh.nodes| ==> CallHasThread(s, n))
    && s.sh.gate == |s.sh.queue| + Owed(s)
  }

  lemma OutsidePost(t: nat, a: Action, sh: Shared, sh2: Shared, pc2: Pc)
    requires QueueOk(sh) && Ready(t, sh, Outside) && OutsideStep(t, a, sh, sh2, pc2)
    ensures Post(t, sh, Outside, sh2, pc2)
  {
    hide Post, QueueOk, Ready, Quiet, Settles, BeginStep, TokenStep, EventStep;
    match a
    case Start(c) => BeginLocal(t, c, sh, sh2, pc2); QuietPost(t, sh, Outside, sh2, pc2);
    case Use(c) => TokenLocal(t, c, sh, sh2, pc2); QuietPost(t, sh, Outside, sh2, pc2);
    case Event(c) => EventLocal(t, c, sh, sh2, pc2);
  }

  lemma HandoffPost(t: nat, a: Action, sh: Shared, p: HandPc, sh2: Shared, pc2: Pc)
    requires QueueOk(sh) && Ready(t, sh, Handing(p)) && HandoffStep(t, a, sh, p, sh2, pc2)
    ensures Post(t, sh, Handing(p), sh2, pc2)
  {
    hide *;
    if !p.Handoff? {
      ServeLocal(t, a, sh, p, sh2, pc2);
    } else if sh.closed || sh.queue == [] {
      HandoffDone(t, a, sh, p, sh2, pc2);
    } else {
      HandoffLook(t, a, sh, p, sh2, pc2);
    }
    QuietPost(t, sh, Handing(p), sh2, pc2);
  }

  lemma StepPost(t: nat, a: Action, sh: Shared, pc: Pc, sh2: Shared, pc2: Pc)
    requires Step(t, a, sh, pc, sh2, pc2) && QueueOk(sh) && Ready(t, sh, pc)
    requires pc.Settling? && pc.atSettle.PrepareAbandon? ==> Decided(sh, pc.atSettle.context)
    ensures Post(t, sh, pc, sh2, pc2)
  {
    hide Post, QueueOk, Ready, Quiet, Settles, Decided, OutsideStep, TryStep, AcquireStep, ClaimStep, RegisterStep,
         SleepStep, ReleaseStep, ReclaimStep, TakeStep, HandoffStep, CompleteStep, SweepStep, SettleStep, CountStep;
    match pc
    case Outside => OutsidePost(t, a, sh, sh2, pc2);
    case Trying(p) => TryLocal(t, a, sh, p, sh2, pc2); QuietPost(t, sh, pc, sh2, pc2);
    case Acquiring(p) =>
      if p.MakeNode? {
        MakeNodeLocal(t, a, sh, p, sh2, pc2);
      } else {
        AcquireLocal(t, a, sh, p, sh2, pc2); QuietPost(t, sh, pc, sh2, pc2);
      }
    case Claiming(p) => ClaimLocal(t, a, sh, p, sh2, pc2); QuietPost(t, sh, pc, sh2, pc2);
    case Registering(p) => RegisterLocal(t, a, sh, p, sh2, pc2);
    case Sleeping(p) => SleepLocal(t, a, sh, p, sh2, pc2);
    case Releasing(p) => ReleaseLocal(t, a, sh, p, sh2, pc2); QuietPost(t, sh, pc, sh2, pc2);
    case Reclaiming(p) => ReclaimLocal(t, a, sh, p, sh2, pc2); QuietPost(t, sh, pc, sh2, pc2);
    case Taking(p) => TakeLocal(t, a, sh, p, sh2, pc2); QuietPost(t, sh, pc, sh2, pc2);
    case Handing(p) => HandoffPost(t, a, sh, p, sh2, pc2);
    case Completing(p) =>
      if p.Give? {
        GiveLocal(t, a, sh, p, sh2, pc2);
      } else if p.Complete? {
        SelectLocal(t, a, sh, p, sh2, pc2);
      } else {
        NotifyLocal(t, a, sh, p, sh2, pc2);
      }
    case Sweeping(p) =>
      if p.SweepWord? || p.SweepBits? {
        SweepWords(t, a, sh, p, sh2, pc2);
      } else {
        DrainLocal(t, a, sh, p, sh2, pc2);
      }
      QuietPost(t, sh, pc, sh2, pc2);
    case Settling(p) =>
      if p.PrepareAbandon? {
        PrepareLocal(t, a, sh, p, sh2, pc2);
      } else {
        SettleNode(t, a, sh, p, sh2, pc2);
      }
    case Counting(_, _, _) => CountLocal(t, a, sh, pc, sh2, pc2); QuietPost(t, sh, pc, sh2, pc2);
  }

  // ------------------------------------------------------------------ what a thread knows survives the others

  ghost predicate Unstopped(sh: Shared, n: int) {
    0 <= n < |sh.nodes| && sh.nodes[n].kind.Async? ==> sh.nodes[n].kind.context !in sh.stopped
  }

  lemma NodeStable(t: nat, sh: Shared, sh2: Shared, q: nat, n: nat)
    requires Guarantee(t, sh, sh2) && QueueOk(sh) && q != t && Unstopped(sh, n)
    ensures Settled(sh, q, n) ==> Settled(sh2, q, n)
    ensures Deciding(sh, q, n) && sh.owner == q ==> Deciding(sh2, q, n)
    ensures Deciding(sh, q, n) ==> Deciding(sh2, q, n) || (Settled(sh2, q, n) && sh2.nodes[n].state == Cancelled)
    ensures n < |sh.nodes| && sh.nodes[n].state != Queued ==> sh2.nodes[n].state == sh.nodes[n].state
  {
    if n < |sh.nodes| {
      assert NodeEvolves(t, sh, sh.nodes[n], sh2.nodes[n]) && NodeOk(sh, n);
    }
  }

  lemma SequelStable(t: nat, sh: Shared, sh2: Shared, q: nat, h: Sequel)
    requires Guarantee(t, sh, sh2) && QueueOk(sh) && q != t && SequelOk(sh, q, h) && Unstopped(sh, SequelNode(h))
    ensures SequelOk(sh2, q, h)
  {
    if h.ThenSubmit? {
      NodeStable(t, sh, sh2, q, h.node);
    }
  }

  lemma AfterStable(t: nat, sh: Shared, sh2: Shared, q: nat, after: After)
    requires Guarantee(t, sh, sh2) && QueueOk(sh) && q != t && AfterOk(sh, q, after) && Unstopped(sh, AfterNode(after))
    ensures AfterOk(sh2, q, after)
  {
    match after
    case AfterRetry(_, h) => SequelStable(t, sh, sh2, q, h);
    case AfterGive(h) => SequelStable(t, sh, sh2, q, h);
    case AfterDrain =>
    case AfterSelect =>
  }

  lemma CompleteStable(t: nat, sh: Shared, sh2: Shared, q: nat, p: CompPc)
    requires Guarantee(t, sh, sh2) && QueueOk(sh) && q != t
    requires CompleteOk(sh, q, p) && Unstopped(sh, CallNode(Completing(p)))
    requires sh.owner == q <==> HasMutex(Completing(p))
    ensures CompleteOk(sh2, q, p)
  {
    assert NodeEvolves(t, sh, sh.nodes[p.node], sh2.nodes[p.node]);
    if p.Give? {
      SequelStable(t, sh, sh2, q, p.sequel);
    } else {
      AfterStable(t, sh, sh2, q, p.after);
    }
  }

  lemma SettleStable(t: nat, sh: Shared, sh2: Shared, q: nat, p: SettlePc)
    requires Guarantee(t, sh, sh2) && QueueOk(sh) && q != t
    requires SettleOk(sh, q, p) && Unstopped(sh, CallNode(Settling(p)))
    ensures SettleOk(sh2, q, p)
  {
    match p
    case SubmitInit(n) => NodeStable(t, sh, sh2, q, n);
    case Unregister(n) => assert NodeEvolves(t, sh, sh.nodes[n], sh2.nodes[n]);
    case SelectLock(n, _) => assert NodeEvolves(t, sh, sh.nodes[n], sh2.nodes[n]);
    case PrepareAbandon(c, k) =>
      forall n | 0 <= n < k && sh2.nodes[n].kind == Async(c) && sh2.nodes[n].registered
        ensures sh2.nodes[n].state != Queued
      {
        assert NodeEvolves(t, sh, sh.nodes[n], sh2.nodes[n]);
      }
  }

  /** What another thread knows survives a step of `t`. */
  lemma OkStable(t: nat, sh: Shared, sh2: Shared, q: nat, pc: Pc)
    requires Guarantee(t, sh, sh2) && QueueOk(sh) && Ok(sh, q, pc) && Unstopped(sh, CallNode(pc)) && q != t
    requires sh.owner == q <==> HasMutex(pc)
    ensures Ok(sh2, q, pc)
  {
    match pc
    case Claiming(p) => if p.purpose.ForStrong? { NodeStable(t, sh, sh2, q, p.purpose.node); }
    case Registering(p) =>
      NodeStable(t, sh, sh2, q, p.node);
      if p.ArmTimer? {
        assert NodeEvolves(t, sh, sh.nodes[p.node], sh2.nodes[p.node]) && NodeOk(sh, p.node);
      }
    case Sleeping(p) => assert NodeEvolves(t, sh, sh.nodes[p.node], sh2.nodes[p.node]);
    case Handing(p) => if p.Handoff? || p.HandoffLock? { SequelStable(t, sh, sh2, q, p.sequel); }
    case Completing(p) => CompleteStable(t, sh, sh2, q, p);
    case Settling(p) => SettleStable(t, sh, sh2, q, p);
    case _ =>
  }

  lemma ReadyStable(t: nat, sh: Shared, sh2: Shared, q: nat, pc: Pc)
    requires Guarantee(t, sh, sh2) && QueueOk(sh) && Ready(q, sh, pc) && q != t
    requires CallKind(sh, pc).Async? ==> CallKind(sh, pc).context !in sh2.stopping
    requires CallNode(pc) < |sh.nodes|
    ensures Ready(q, sh2, pc)
  {
    var n := CallNode(pc);
    assert 0 <= n ==> NodeEvolves(t, sh, sh.nodes[n], sh2.nodes[n]);
    OkStable(t, sh, sh2, q, pc);
  }

  /** A thread's call is a node that exists. */
  lemma CallExists(t: nat, sh: Shared, pc: Pc)
    requires Ok(sh, t, pc)
    ensures CallNode(pc) < |sh.nodes|
  {
  }

  // ------------------------------------------------------------------ whole states

  lemma DecidedWhenStopping(s: State, c: nat)
    requires Protocol(s) && c in s.sh.stopping
    ensures Decided(s.sh, c)
  {
    forall n |
      0 <= n < |s.sh.nodes| && s.sh.nodes[n].kind == Async(c) && s.sh.nodes[n].registered
      && s.sh.nodes[n].state == Queued
      ensures s.sh.nodes[n].linked
    {
      assert CallHasThread(s, n);
      assert s.sh.nodes[n].owner < |s.ths| ==> Ready(s.sh.nodes[n].owner, s.sh, s.ths[s.sh.nodes[n].owner]);
    }
  }

  lemma MovePost(s: State, t: nat, a: Action, s2: State)
    requires Protocol(s) && Moves(s, t, a, s2)
    ensures Post(t, s.sh, s.ths[t], s2.sh, s2.ths[t])
  {
    hide Step, QueueOk, Post, Decided;
    var pc := s.ths[t];
    assert Ready(t, s.sh, pc);
    if pc.Settling? && pc.atSettle.PrepareAbandon? {
      DecidedWhenStopping(s, pc.atSettle.context);
    }
    StepPost(t, a, s.sh, pc, s2.sh, s2.ths[t]);
  }

  lemma MoveReady(s: State, t: nat, a: Action, s2: State, q: nat)
    requires Protocol(s) && Moves(s, t, a, s2) && q < |s2.ths|
    requires Post(t, s.sh, s.ths[t], s2.sh, s2.ths[t])
    ensures Ready(q, s2.sh, s2.ths[q])
  {
    hide Step, QueueOk, Guarantee, Ok;
    if q != t {
      assert Ready(q, s.sh, s.ths[q]);
      CallExists(q, s.sh, s.ths[q]);
      ReadyStable(t, s.sh, s2.sh, q, s.ths[q]);
    }
  }

  lemma MoveCalls(s: State, t: nat, a: Action, s2: State, n: nat)
    requires Protocol(s) && Moves(s, t, a, s2) && n < |s2.sh.nodes|
    requires Post(t, s.sh, s.ths[t], s2.sh, s2.ths[t])
    ensures CallHasThread(s2, n)
  {
    hide Step, QueueOk, Ok, Contracted;
    if n < |s.sh.nodes| {
      assert NodeEvolves(t, s.sh, s.sh.nodes[n], s2.sh.nodes[n]);
      assert CallHasThread(s, n);
    }
  }

  lemma ProtocolMove(s: State, t: nat, a: Action, s2: State)
    requires Protocol(s) && Moves(s, t, a, s2)
    ensures Protocol(s2)
  {
    hide Step, QueueOk, Ok, Contracted, CallKind, NodeEvolves, CallHasThread, CallKept;
    MovePost(s, t, a, s2);
    forall q | 0 <= q < |s2.ths| ensures Ready(q, s2.sh, s2.ths[q]) {
      MoveReady(s, t, a, s2, q);
    }
    forall n | 0 <= n < |s2.sh.nodes| ensures CallHasThread(s2, n) {
      MoveCalls(s, t, a, s2, n);
    }
    assert Ready(t, s.sh, s.ths[t]);
  }

  lemma ProtocolNext(s: State, s2: State)
    requires Protocol(s) && Next(s, s2)
    ensures Protocol(s2)
  {
    if t: nat, a: Action :| Moves(s, t, a, s2) {
      ProtocolMove(s, t, a, s2);
    } else {
      hide Step, Moves;
      QuietStep(|s.ths|, s.sh, s2.sh);
      forall q | 0 <= q < |s2.ths| ensures Ready(q, s2.sh, s2.ths[q]) {
        assert Ready(q, s.sh, s.ths[q]);
        CallExists(q, s.sh, s.ths[q]);
        ReadyStable(|s.ths|, s.sh, s2.sh, q, s.ths[q]);
      }
      forall n | 0 <= n < |s2.sh.nodes| ensures CallHasThread(s2, n) {
        assert CallHasThread(s, n);
      }
    }
  }

  lemma ProtocolInit(s: State)
    requires Init(s)
    ensures Protocol(s)
  {
  }
}
