/**
 What acquire() and try_acquire() answer, whatever the other threads do meanwhile: a token only
 if the slot was decided on before the deadline, a timeout only past it, a shutdown only in a
 closed pool, and exhaustion only if every word was seen empty.
 */
module PoolAnswers {
  import opened Basics
  import opened PoolModel
  import opened PoolProtocol
  import opened PoolSteps
  import opened PoolInvariant
  import opened PoolPlaces
  import opened PoolOwnership
  import opened PoolWaiters
  import opened PoolTheorems
  import opened PoolHistory
  import opened PoolStats

  // ------------------------------------------------------------------ a call in progress

  /** Node `n` is that of the call, made since there were `base` nodes. */
  ghost predicate Mine(sh: Shared, t: nat, n: nat, call: Call, base: nat) {
    && base <= n < |sh.nodes|
    && sh.nodes[n].kind == Sync && sh.nodes[n].deadline == call.deadline && sh.nodes[n].owner == t
  }

  /** The call is already answered, for a reason that holds. */
  ghost predicate Refusal(sh: Shared, t: nat, call: Call) {
    && t in sh.answers
    && (|| (sh.answers[t] == TooLate && Expired(call.deadline, sh.now))
        || (sh.answers[t] == Shut && sh.closed))
  }

  /** Thread `t` is still at its acquire call. */
  ghost predicate Pursues(sh: Shared, t: nat, pc: Pc, call: Call, base: nat) {
    match pc
    case Outside => false
    case Trying(_) => false
    case Taking(_) => false
    case Counting(_, _, _) => false
    case Acquiring(p) => if p.AcqRecheck? || p.AcqLate? then p.deadline == call.deadline else p.call == call
    case Claiming(p) =>
      (match p.purpose
       case ForFast(c) => c == call
       case ForStrong(n) => Mine(sh, t, n, call, base)
       case ForServe => Refusal(sh, t, call)
       case _ => false)
    case Registering(p) => Mine(sh, t, p.node, call, base)
    case Sleeping(p) => Mine(sh, t, p.node, call, base)
    case _ => Refusal(sh, t, call)
  }

  /** Why the call may be lent slot `i`: the thread owns the slot before the deadline, or the slot
      was assigned to the node of the call. */
  ghost predicate Earned(sh: Shared, t: nat, pc: Pc, call: Call, base: nat, i: nat) {
    || ((pc.Acquiring? || pc.Registering?) && Holds(pc, i) && !Expired(call.deadline, sh.now))
    || (pc.Sleeping? && Mine(sh, t, pc.atSleep.node, call, base) && NodeHolds(sh.nodes[pc.atSleep.node], i)
        && sh.nodes[pc.atSleep.node].linked)
  }

  /** The step with which the call returns: a token comes with the answer that says so, and only then. */
  ghost predicate Returns(sh: Shared, t: nat, pc: Pc, call: Call, base: nat, sh2: Shared) {
    && t in sh2.answers
    && match sh2.answers[t]
       case Lent(i) => sh2.borrowed == sh.borrowed + multiset{i} && Earned(sh, t, pc, call, base, i)
       case TooLate => sh2.borrowed == sh.borrowed && Expired(call.deadline, sh2.now)
       case Shut => sh2.borrowed == sh.borrowed && sh2.closed
       case Exhausted => false
  }

  ghost predicate Proceeds(sh: Shared, t: nat, pc: Pc, call: Call, base: nat, sh2: Shared, pc2: Pc) {
    if pc2 == Outside then Returns(sh, t, pc, call, base, sh2)
    else sh2.borrowed == sh.borrowed && Pursues(sh2, t, pc2, call, base)
  }

  // ------------------------------------------------------------------ steps of the calling thread

  lemma AcquireProceeds(t: nat, a: Action, sh: Shared, p: AcqPc, sh2: Shared, pc2: Pc, call: Call, base: nat)
    requires AcquireStep(t, a, sh, p, sh2, pc2) && Pursues(sh, t, Acquiring(p), call, base)
    requires call.kind == Sync && base <= |sh.nodes|
    ensures Proceeds(sh, t, Acquiring(p), call, base, sh2, pc2)
  {
  }

  lemma ClaimProceeds(t: nat, a: Action, sh: Shared, p: ClaimPc, sh2: Shared, pc2: Pc, call: Call, base: nat)
    requires ClaimStep(t, a, sh, p, sh2, pc2) && Pursues(sh, t, Claiming(p), call, base)
    ensures Proceeds(sh, t, Claiming(p), call, base, sh2, pc2)
  {
    match p.purpose
    case ForTry => case ForFast(_) => case ForTake => case ForStrong(_) => case ForServe =>
  }

  lemma RegisterProceeds(t: nat, a: Action, sh: Shared, p: RegPc, sh2: Shared, pc2: Pc, call: Call, base: nat)
    requires RegisterStep(t, a, sh, p, sh2, pc2) && Pursues(sh, t, Registering(p), call, base)
    requires Ok(sh, t, Registering(p))
    ensures Proceeds(sh, t, Registering(p), call, base, sh2, pc2)
  {
    hide Without;
  }

  lemma SleepProceeds(t: nat, a: Action, sh: Shared, p: SleepPc, sh2: Shared, pc2: Pc, call: Call, base: nat)
    requires SleepStep(t, a, sh, p, sh2, pc2) && Pursues(sh, t, Sleeping(p), call, base)
    requires Ok(sh, t, Sleeping(p)) && QueueOk(sh)
    ensures Proceeds(sh, t, Sleeping(p), call, base, sh2, pc2)
  {
    assert NodeOk(sh, p.node);
    hide Without;
  }

  /** The rest of an answered call changes neither the answer nor the tokens. */
  ghost predicate Silent(t: nat, sh: Shared, sh2: Shared, pc2: Pc) {
    && sh2.answers == sh.answers && sh2.borrowed == sh.borrowed && sh2.now == sh.now && sh2.closed == sh.closed
    && !pc2.Trying? && !pc2.Taking? && !pc2.Counting? && !pc2.Acquiring? && !pc2.Registering? && !pc2.Sleeping?
    && (pc2.Claiming? ==> pc2.atClaim.purpose.ForServe?)
  }

  lemma ReturnIsSilent(t: nat, a: Action, sh: Shared, pc: Pc, sh2: Shared, pc2: Pc)
    requires pc.Releasing? || pc.Reclaiming?
    requires Step(t, a, sh, pc, sh2, pc2)
    ensures Silent(t, sh, sh2, pc2)
  {
  }

  lemma HandingIsSilent(t: nat, a: Action, sh: Shared, pc: Pc, sh2: Shared, pc2: Pc)
    requires pc.Handing?
    requires Step(t, a, sh, pc, sh2, pc2)
    ensures Silent(t, sh, sh2, pc2)
  {
  }

  lemma SweepIsSilent(t: nat, a: Action, sh: Shared, pc: Pc, sh2: Shared, pc2: Pc)
    requires pc.Sweeping?
    requires Step(t, a, sh, pc, sh2, pc2)
    ensures Silent(t, sh, sh2, pc2)
  {
  }

  lemma SettleIsSilent(t: nat, a: Action, sh: Shared, pc: Pc, sh2: Shared, pc2: Pc)
    requires pc.Settling?
    requires Step(t, a, sh, pc, sh2, pc2)
    ensures Silent(t, sh, sh2, pc2)
  {
    hide Without;
  }

  lemma SelectIsSilent(t: nat, sh: Shared, n: nat, st: WaiterState, after: After, sh2: Shared, pc2: Pc)
    requires CompleteNode(t, sh, n, st, after, sh2, pc2)
    ensures Silent(t, sh, sh2, pc2)
  {
    hide Without;
  }

  lemma ResumeIsSilent(after: After)
    ensures var pc := Resume(after);
            && !pc.Trying? && !pc.Taking? && !pc.Counting? && !pc.Acquiring? && !pc.Registering? && !pc.Sleeping?
            && !pc.Claiming?
  {
  }

  lemma CompleteIsSilent(t: nat, a: Action, sh: Shared, p: CompPc, sh2: Shared, pc2: Pc)
    requires CompleteStep(t, a, sh, p, sh2, pc2)
    ensures Silent(t, sh, sh2, pc2)
  {
    hide CompleteNode, Resume;
    match p
    case Give(n, i, h) =>
      SelectIsSilent(t, SetNode(sh, n, sh.nodes[n].(slot := i)), n, Assigned, AfterGive(h), sh2, pc2);
    case Complete(n, st, after) => SelectIsSilent(t, sh, n, st, after, sh2, pc2);
    case Notify(_, after) => ResumeIsSilent(after);
    case Submit(_, after) => ResumeIsSilent(after);
  }

  lemma SilentProceeds(t: nat, sh: Shared, pc: Pc, sh2: Shared, pc2: Pc, call: Call, base: nat)
    requires Silent(t, sh, sh2, pc2) && Refusal(sh, t, call)
    ensures Proceeds(sh, t, pc, call, base, sh2, pc2)
  {
  }

  lemma StepIsSilent(t: nat, a: Action, sh: Shared, pc: Pc, sh2: Shared, pc2: Pc)
    requires pc.Releasing? || pc.Reclaiming? || pc.Handing? || pc.Sweeping? || pc.Settling? || pc.Completing?
    requires Step(t, a, sh, pc, sh2, pc2)
    ensures Silent(t, sh, sh2, pc2)
  {
    hide Silent, ReleaseStep, ReclaimStep, HandoffStep, CompleteStep, SweepStep, SettleStep;
    if pc.Completing? {
      CompleteIsSilent(t, a, sh, pc.atComp, sh2, pc2);
    } else if pc.Sweeping? {
      SweepIsSilent(t, a, sh, pc, sh2, pc2);
    } else if pc.Settling? {
      SettleIsSilent(t, a, sh, pc, sh2, pc2);
    } else if pc.Handing? {
      HandingIsSilent(t, a, sh, pc, sh2, pc2);
    } else {
      ReturnIsSilent(t, a, sh, pc, sh2, pc2);
    }
  }

  lemma StepProceeds(t: nat, a: Action, sh: Shared, pc: Pc, sh2: Shared, pc2: Pc, call: Call, base: nat)
    requires Step(t, a, sh, pc, sh2, pc2) && Pursues(sh, t, pc, call, base) && Ok(sh, t, pc) && QueueOk(sh)
    requires call.kind == Sync && base <= |sh.nodes|
    ensures Proceeds(sh, t, pc, call, base, sh2, pc2)
  {
    hide Ok, QueueOk, Proceeds, Silent, Refusal, AcquireStep, ClaimStep, RegisterStep, SleepStep, ReleaseStep,
         ReclaimStep, HandoffStep, CompleteStep, SweepStep, SettleStep;
    match pc
    case Acquiring(p) => AcquireProceeds(t, a, sh, p, sh2, pc2, call, base);
    case Claiming(p) => ClaimProceeds(t, a, sh, p, sh2, pc2, call, base);
    case Registering(p) => RegisterProceeds(t, a, sh, p, sh2, pc2, call, base);
    case Sleeping(p) => SleepProceeds(t, a, sh, p, sh2, pc2, call, base);
    case _ => StepIsSilent(t, a, sh, pc, sh2, pc2); SilentProceeds(t, sh, pc, sh2, pc2, call, base);
  }

  // ------------------------------------------------------------------ steps of the others

  ghost predicate SameAnswer(sh: Shared, sh2: Shared, q: nat) {
    (q in sh2.answers <==> q in sh.answers) && (q in sh.answers ==> sh2.answers[q] == sh.answers[q])
  }

  lemma TryStepAnswers(t: nat, a: Action, sh: Shared, p: TryPc, sh2: Shared, pc2: Pc, q: nat)
    requires TryStep(t, a, sh, p, sh2, pc2) && q != t
    ensures SameAnswer(sh, sh2, q)
  {
  }

  lemma AcquireStepAnswers(t: nat, a: Action, sh: Shared, p: AcqPc, sh2: Shared, pc2: Pc, q: nat)
    requires AcquireStep(t, a, sh, p, sh2, pc2) && q != t
    ensures SameAnswer(sh, sh2, q)
  {
    hide Expired;
  }

  lemma StrongAnswers(t: nat, sh: Shared, i: nat, n: nat, sh2: Shared, pc2: Pc, q: nat)
    requires n < |sh.nodes| && StrongClaim(t, sh, i, n, sh2, pc2) && q != t
    ensures SameAnswer(sh, sh2, q)
  {
  }

  lemma EndAnswers(t: nat, sh: Shared, n: nat, st: WaiterState, sh2: Shared, pc2: Pc, q: nat)
    requires Settle(t, sh, n, st, sh2, pc2) && q != t
    ensures SameAnswer(sh, sh2, q)
  {
  }

  lemma RegisterAnswers(t: nat, a: Action, sh: Shared, p: RegPc, sh2: Shared, pc2: Pc, q: nat)
    requires RegisterStep(t, a, sh, p, sh2, pc2) && q != t
    ensures SameAnswer(sh, sh2, q)
  {
    hide Without, StrongClaim, Settle;
    if p.StrongLate? {
      StrongAnswers(t, sh, p.index, p.node, sh2, pc2, q);
    } else if p.RegLock? && sh.nodes[p.node].state != Cancelled && sh.closed {
      EndAnswers(t, sh, p.node, ShutDown, sh2, pc2, q);
    } else if p.RegExpired? && Expired(sh.nodes[p.node].deadline, sh.now) {
      EndAnswers(t, sh, p.node, TimedOut, sh2, pc2, q);
    }
  }

  lemma SleepAnswers(t: nat, a: Action, sh: Shared, p: SleepPc, sh2: Shared, pc2: Pc, q: nat)
    requires SleepStep(t, a, sh, p, sh2, pc2) && q != t
    ensures SameAnswer(sh, sh2, q)
  {
    hide Without;
  }

  lemma OtherAnswers(t: nat, a: Action, sh: Shared, pc: Pc, sh2: Shared, pc2: Pc, q: nat)
    requires pc.Outside? || pc.Claiming? || pc.Taking? || pc.Counting?
    requires Step(t, a, sh, pc, sh2, pc2)
    ensures SameAnswer(sh, sh2, q)
  {
    assert sh2.answers == sh.answers;
  }

  /** A thread answers for itself only. */
  lemma StepAnswers(t: nat, a: Action, sh: Shared, pc: Pc, sh2: Shared, pc2: Pc, q: nat)
    requires Step(t, a, sh, pc, sh2, pc2) && q != t
    ensures SameAnswer(sh, sh2, q)
  {
    hide OutsideStep, TryStep, TakeStep, CountStep, AcquireStep, ClaimStep, RegisterStep, SleepStep, ReleaseStep,
         ReclaimStep, HandoffStep, CompleteStep, SweepStep, SettleStep;
    match pc
    case Trying(p) => TryStepAnswers(t, a, sh, p, sh2, pc2, q);
    case Acquiring(p) => AcquireStepAnswers(t, a, sh, p, sh2, pc2, q);
    case Registering(p) => RegisterAnswers(t, a, sh, p, sh2, pc2, q);
    case Sleeping(p) => SleepAnswers(t, a, sh, p, sh2, pc2, q);
    case Outside => OtherAnswers(t, a, sh, pc, sh2, pc2, q);
    case Claiming(_) => OtherAnswers(t, a, sh, pc, sh2, pc2, q);
    case Taking(_) => OtherAnswers(t, a, sh, pc, sh2, pc2, q);
    case Counting(_, _, _) => OtherAnswers(t, a, sh, pc, sh2, pc2, q);
    case _ => StepIsSilent(t, a, sh, pc, sh2, pc2);
  }

  /** The node a blocking call works on. */
  ghost function NodeOf(pc: Pc): int {
    match pc
    case Registering(p) => p.node
    case Sleeping(p) => p.node
    case Claiming(p) => if p.purpose.ForStrong? then p.purpose.node else -1
    case _ => -1
  }

  lemma PursuesStill(q: nat, sh: Shared, sh2: Shared, t: nat, pc: Pc, call: Call, base: nat)
    requires q != t && SameAnswer(sh, sh2, t) && Guarantee(q, sh, sh2) && Pursues(sh, t, pc, call, base)
    ensures Pursues(sh2, t, pc, call, base)
  {
    var n := NodeOf(pc);
    if 0 <= n < |sh.nodes| {
      assert NodeEvolves(q, sh, sh.nodes[n], sh2.nodes[n]);
    }
  }

  // ------------------------------------------------------------------ acquire

  /** Between states `j` and `k` thread `t` makes one blocking call, from its start to its return. */
  ghost predicate Calls(r: seq<State>, j: nat, k: nat, t: nat, call: Call) {
    && Run(r) && j + 1 < k < |r| && call.kind == Sync
    && (forall m :: j <= m <= k ==> t < |r[m].ths|)
    && r[j].ths[t] == Outside && r[j + 1].ths[t] == Acquiring(AcqClosed(call)) && r[k].ths[t] == Outside
    && (forall m :: j < m < k ==> r[m].ths[t] != Outside)
  }

  ghost predicate Acts(s: State, t: nat, s2: State) {
    exists a :: Moves(s, t, a, s2)
  }

  /** A move of some thread, or a tick, under which thread `t` is still at its call. */
  lemma NextPursues(s: State, s2: State, t: nat, call: Call, base: nat)
    requires Inv(s) && Next(s, s2) && t < |s.ths| && t < |s2.ths| && call.kind == Sync && base <= |s.sh.nodes|
    requires Pursues(s.sh, t, s.ths[t], call, base)
    ensures base <= |s2.sh.nodes|
    ensures Acts(s, t, s2) ==> Proceeds(s.sh, t, s.ths[t], call, base, s2.sh, s2.ths[t])
    ensures !Acts(s, t, s2) ==> s2.ths[t] == s.ths[t] && Pursues(s2.sh, t, s2.ths[t], call, base)
  {
    hide Owned, Step, Pursues, Proceeds, SameAnswer, QueueOk, Guarantee, Post;
    if a: Action :| Moves(s, t, a, s2) {
      assert Ready(t, s.sh, s.ths[t]);
      StepProceeds(t, a, s.sh, s.ths[t], s2.sh, s2.ths[t], call, base);
      MovePost(s, t, a, s2);
      PostGuarantee(s, t, s2);
      MoreNodes(t, s.sh, s2.sh);
    } else if q: nat, a: Action :| Moves(s, q, a, s2) {
      StepAnswers(q, a, s.sh, s.ths[q], s2.sh, s2.ths[q], t);
      MovePost(s, q, a, s2);
      PostGuarantee(s, q, s2);
      MoreNodes(q, s.sh, s2.sh);
      PursuesStill(q, s.sh, s2.sh, t, s.ths[t], call, base);
    } else {
      PursuesLater(s.sh, s2.sh, t, s.ths[t], call, base);
    }
  }

  lemma MoreNodes(t: nat, sh: Shared, sh2: Shared)
    requires Guarantee(t, sh, sh2)
    ensures |sh.nodes| <= |sh2.nodes|
  {
  }

  lemma PursuesLater(sh: Shared, sh2: Shared, t: nat, pc: Pc, call: Call, base: nat)
    requires Pursues(sh, t, pc, call, base) && sh2.now >= sh.now && sh2 == sh.(now := sh2.now)
    ensures Pursues(sh2, t, pc, call, base)
  {
  }

  lemma {:induction false} InCall(r: seq<State>, j: nat, m: nat, k: nat, t: nat, call: Call)
    requires Calls(r, j, k, t, call) && j < m < k
    ensures |r[j].sh.nodes| <= |r[m].sh.nodes| && Pursues(r[m].sh, t, r[m].ths[t], call, |r[j].sh.nodes|)
    decreases m
  {
    hide Inv, Next, Moves, Proceeds;
    var base := |r[j].sh.nodes|;
    RunNext(r, m - 1);
    if m == j + 1 {
      OutcomeOnce(r, j, m);
    } else {
      InCall(r, j, m - 1, k, t, call);
      Invariant(r, m - 1);
      hide Run, Pursues;
      NextPursues(r[m - 1], r[m], t, call, base);
      if Acts(r[m - 1], t, r[m]) {
        StillAtIt(r[m - 1].sh, t, r[m - 1].ths[t], call, base, r[m].sh, r[m].ths[t]);
      }
    }
  }

  lemma StillAtIt(sh: Shared, t: nat, pc: Pc, call: Call, base: nat, sh2: Shared, pc2: Pc)
    requires Proceeds(sh, t, pc, call, base, sh2, pc2) && pc2 != Outside
    ensures Pursues(sh2, t, pc2, call, base) && sh2.borrowed == sh.borrowed
  {
  }

  lemma Concludes(sh: Shared, t: nat, pc: Pc, call: Call, base: nat, sh2: Shared)
    requires Proceeds(sh, t, pc, call, base, sh2, Outside)
    ensures Returns(sh, t, pc, call, base, sh2)
  {
  }

  /** A linked node that holds a slot was given it while it was in the queue. */
  lemma {:induction false} AssignedFromQueue(r: seq<State>, k: nat, n: nat)
    requires Run(r) && k < |r| && n < |r[k].sh.nodes| && r[k].sh.nodes[n].linked && r[k].sh.nodes[n].state == Assigned
    ensures exists m ::
              0 <= m < k && n in r[m].sh.queue && n < |r[m + 1].sh.nodes| && r[m + 1].sh.nodes[n].state == Assigned
    decreases k
  {
    hide Inv, Next;
    if k > 0 {
      Invariant(r, k - 1);
      RunNext(r, k - 1);
      hide Run;
      AssignedBefore(r[k - 1], r[k], n);
      if n in r[k - 1].sh.queue {
        assert r[k - 1 + 1] == r[k];
      } else {
        AssignedFromQueue(r, k - 1, n);
      }
    }
  }

  lemma AssignedBefore(s: State, s2: State, n: nat)
    requires Inv(s) && Next(s, s2) && n < |s2.sh.nodes| && s2.sh.nodes[n].linked && s2.sh.nodes[n].state == Assigned
    ensures n < |s.sh.nodes| && s.sh.nodes[n].linked && (n in s.sh.queue || s.sh.nodes[n].state == Assigned)
  {
    NextFollows(s, s2);
    hide Owned, Step;
    if t: nat, a: Action :| Moves(s, t, a, s2) {
      assert Ready(t, s.sh, s.ths[t]);
      StepAttend(t, a, s.sh, s.ths[t], s2.sh, s2.ths[t], n);
    }
    assert n < |s.sh.nodes| && NodeOk(s.sh, n) && Kept(s.sh.nodes[n], s2.sh.nodes[n]);
  }

  /** The moment that grants slot `i` to the call, its deadline not passed: the calling thread owns the
      slot, or a handoff that owns it finds the call at the head of the queue of the open pool. */
  ghost predicate Grants(s: State, t: nat, call: Call, i: nat) {
    && t < |s.ths| && (call.deadline.At? ==> s.sh.now < call.deadline.time)
    && (|| ((s.ths[t].Acquiring? || s.ths[t].Registering?) && Holds(s.ths[t], i))
        || (!s.sh.closed && exists q :: HandsTo(s, q, t, i)))
  }

  ghost predicate HandsTo(s: State, q: nat, t: nat, i: nat) {
    && q < |s.ths| && s.ths[q].Handing? && s.ths[q].atHand.Handoff? && s.ths[q].atHand.index == i
    && s.sh.queue != [] && s.sh.queue[0] < |s.sh.nodes| && s.sh.nodes[s.sh.queue[0]].owner == t
  }

  /** A blocked call that finds a slot in its node was handed it in time, during the call. */
  lemma HandedInTime(r: seq<State>, j: nat, k: nat, t: nat, call: Call, n: nat)
    requires Run(r) && j < k < |r| && Mine(r[k].sh, t, n, call, |r[j].sh.nodes|)
    requires r[k].sh.nodes[n].linked && r[k].sh.nodes[n].state == Assigned && t < |r[k].ths|
    ensures exists m :: j < m < k && Grants(r[m], t, call, r[k].sh.nodes[n].slot)
  {
    hide Run, Looked, Follows;
    AssignedFromQueue(r, k, n);
    var m :| 0 <= m < k && n in r[m].sh.queue && n < |r[m + 1].sh.nodes| && r[m + 1].sh.nodes[n].state == Assigned;
    HandoffToOldest(r, m, n);
    var l, q: nat, p :| 0 <= l < m && Looked(r, l, m, q, n, p) && p.Give? && p.index == r[m + 1].sh.nodes[n].slot;
    SeenLooking(r, l, m, q, n, p);
    SameNode(r, l, k, n);
    SameNode(r, m + 1, k, n);
    assert HandsTo(r[l], q, t, p.index);
    if l <= j {
      FewerNodes(r, l, j);
      assert false;
    }
  }

  lemma SeenLooking(r: seq<State>, j: nat, k: nat, q: nat, n: nat, p: CompPc)
    requires j < k < |r| && Looked(r, j, k, q, n, p)
    ensures n < |r[j].sh.nodes| && !Expired(r[j].sh.nodes[n].deadline, r[j].sh.now) && !r[j].sh.closed
    ensures r[j].sh.queue != [] && r[j].sh.queue[0] == n
    ensures q < |r[j].ths| && r[j].ths[q].Handing? && r[j].ths[q].atHand.Handoff? && r[j].ths[q].atHand.index == p.index
  {
  }

  lemma SameNode(r: seq<State>, j: nat, k: nat, n: nat)
    requires Run(r) && j <= k < |r| && n < |r[j].sh.nodes|
    ensures n < |r[k].sh.nodes| && Kept(r[j].sh.nodes[n], r[k].sh.nodes[n]) && |r[j].ths| == |r[k].ths|
  {
    OutcomeOnce(r, j, k);
  }

  lemma FewerNodes(r: seq<State>, j: nat, k: nat)
    requires Run(r) && j <= k < |r|
    ensures |r[j].sh.nodes| <= |r[k].sh.nodes|
  {
    OutcomeOnce(r, j, k);
  }

  /** What a call of `acquire` answers, in every run: it returns by a step of its own, adding one token to
      those that are out if it answers with a slot and none otherwise; a slot only if it was granted before
      the deadline, a timeout only past the deadline, a shutdown only in a closed pool, nothing else. */
  lemma AcquireAnswers(r: seq<State>, j: nat, k: nat, t: nat, call: Call)
    requires Calls(r, j, k, t, call)
    ensures Acts(r[k - 1], t, r[k]) && t in r[k].sh.answers
    ensures forall i :: r[k].sh.answers[t] == Lent(i) ==>
              && r[k].sh.borrowed == r[k - 1].sh.borrowed + multiset{i}
              && exists m :: j < m < k && Grants(r[m], t, call, i)
    ensures !r[k].sh.answers[t].Lent? ==> r[k].sh.borrowed == r[k - 1].sh.borrowed
    ensures r[k].sh.answers[t] == TooLate ==> call.deadline.At? && call.deadline.time <= r[k].sh.now
    ensures r[k].sh.answers[t] == Shut ==> r[k].sh.closed
    ensures r[k].sh.answers[t] != Exhausted
  {
    hide Inv, Next, Moves, Proceeds, Pursues;
    var s, s2 := r[k - 1], r[k];
    var base := |r[j].sh.nodes|;
    InCall(r, j, k - 1, k, t, call);
    Invariant(r, k - 1);
    RunNext(r, k - 1);
    hide Run;
    NextPursues(s, s2, t, call, base);
    Concludes(s.sh, t, s.ths[t], call, base, s2.sh);
    hide Mine;
    if s2.sh.answers[t].Lent? {
      var i := s2.sh.answers[t].index;
      if s.ths[t].Sleeping? {
        HandedInTime(r, j, k - 1, t, call, s.ths[t].atSleep.node);
      } else {
        assert Grants(s, t, call, i);
      }
    }
  }

  /** Until it returns, the steps of the call leave the tokens alone. */
  lemma AcquireHoldsBack(r: seq<State>, j: nat, m: nat, k: nat, t: nat, call: Call)
    requires Calls(r, j, k, t, call) && j <= m < k - 1 && Acts(r[m], t, r[m + 1])
    ensures r[m + 1].sh.borrowed == r[m].sh.borrowed
  {
    if m > j {
      hide Inv, Next, Moves, Proceeds, Pursues;
      InCall(r, j, m, k, t, call);
      Invariant(r, m);
      RunNext(r, m);
      NextPursues(r[m], r[m + 1], t, call, |r[j].sh.nodes|);
      StillAtIt(r[m].sh, t, r[m].ths[t], call, |r[j].sh.nodes|, r[m + 1].sh, r[m + 1].ths[t]);
    }
  }

  // ------------------------------------------------------------------ what a scan has seen

  /** Word `w` was empty in state `l`, and thread `t` has been inside the pool from then to state `k`. */
  ghost predicate SeenEmpty(r: seq<State>, l: nat, k: nat, t: nat, w: nat) {
    && l <= k < |r| && WordBits(r[l].sh.bits, w) == {}
    && forall m :: l <= m <= k ==> t < |r[m].ths| && r[m].ths[t] != Outside
  }

  ghost predicate SawEmpty(r: seq<State>, k: nat, t: nat, w: nat) {
    exists l: nat :: SeenEmpty(r, l, k, t, w)
  }

  lemma StillSeen(r: seq<State>, k: nat, t: nat, w: nat)
    requires SawEmpty(r, k, t, w) && k + 1 < |r| && t < |r[k + 1].ths| && r[k + 1].ths[t] != Outside
    ensures SawEmpty(r, k + 1, t, w)
  {
    var l: nat :| SeenEmpty(r, l, k, t, w);
    assert SeenEmpty(r, l, k + 1, t, w);
  }

  /** A scan moves to the next word only from a word it found empty. */
  lemma ScanMoves(t: nat, a: Action, sh: Shared, pc: Pc, sh2: Shared, pc2: Pc)
    requires Step(t, a, sh, pc, sh2, pc2) && pc2.Claiming? && pc2.atClaim.word > 0
    ensures pc.Claiming?
    ensures || pc.atClaim.word == pc2.atClaim.word
            || (pc.atClaim.word + 1 == pc2.atClaim.word && WordBits(sh.bits, pc.atClaim.word) == {})
  {
    hide OutsideStep, TryStep, TakeStep, CountStep, AcquireStep, RegisterStep, SleepStep, ReleaseStep,
         ReclaimStep, HandoffStep, CompleteStep, SweepStep, SettleStep, ClaimStep;
    match pc
    case Claiming(p) => ScanStep(t, a, sh, p, sh2, pc2);
    case Trying(_) => ScanStart(t, a, sh, pc, sh2, pc2);
    case Acquiring(_) => ScanStart(t, a, sh, pc, sh2, pc2);
    case Taking(_) => ScanStart(t, a, sh, pc, sh2, pc2);
    case Registering(_) => ScanStart(t, a, sh, pc, sh2, pc2);
    case Handing(_) => ScanStart(t, a, sh, pc, sh2, pc2);
    case _ => NoScan(t, a, sh, pc, sh2, pc2);
  }

  lemma ScanStep(t: nat, a: Action, sh: Shared, p: ClaimPc, sh2: Shared, pc2: Pc)
    requires ClaimStep(t, a, sh, p, sh2, pc2) && pc2.Claiming?
    ensures || p.word == pc2.atClaim.word
            || (p.word + 1 == pc2.atClaim.word && WordBits(sh.bits, p.word) == {})
  {
  }

  lemma ScanStart(t: nat, a: Action, sh: Shared, pc: Pc, sh2: Shared, pc2: Pc)
    requires pc.Trying? || pc.Acquiring? || pc.Taking? || pc.Registering? || pc.Handing?
    requires Step(t, a, sh, pc, sh2, pc2) && pc2.Claiming?
    ensures pc2.atClaim.word == 0
  {
  }

  lemma NoScan(t: nat, a: Action, sh: Shared, pc: Pc, sh2: Shared, pc2: Pc)
    requires pc.Outside? || pc.Sleeping? || pc.Releasing? || pc.Reclaiming? || pc.Completing? || pc.Sweeping?
             || pc.Settling? || pc.Counting?
    requires Step(t, a, sh, pc, sh2, pc2)
    ensures !pc2.Claiming?
  {
  }

  lemma {:induction false} ScanSaw(r: seq<State>, k: nat, t: nat, w: nat)
    requires Run(r) && k < |r| && t < |r[k].ths| && r[k].ths[t].Claiming? && w < r[k].ths[t].atClaim.word
    ensures SawEmpty(r, k, t, w)
    decreases k
  {
    hide Next, Moves, WordBits, SawEmpty;
    if k > 0 {
      var s, s2 := r[k - 1], r[k];
      RunNext(r, k - 1);
      if a: Action :| Moves(s, t, a, s2) {
        MoverSteps(s, t, a, s2);
        ScanMoves(t, a, s.sh, s.ths[t], s2.sh, s2.ths[t]);
        if w < s.ths[t].atClaim.word {
          ScanSaw(r, k - 1, t, w);
        } else {
          SeesNow(r, k - 1, t, w);
        }
      } else {
        StandsStill(s, s2, t);
        ScanSaw(r, k - 1, t, w);
      }
      StillSeen(r, k - 1, t, w);
    }
  }

  lemma SeesNow(r: seq<State>, k: nat, t: nat, w: nat)
    requires k < |r| && t < |r[k].ths| && r[k].ths[t] != Outside && WordBits(r[k].sh.bits, w) == {}
    ensures SawEmpty(r, k, t, w)
  {
    assert SeenEmpty(r, k, k, t, w);
  }

  /** Where a scan that finds nothing goes. */
  ghost predicate Missed(p: Purpose, pc2: Pc) {
    match p
    case ForTry => pc2 == Trying(TryEmpty)
    case ForFast(call) => pc2 == Acquiring(MakeNode(call))
    case ForTake => pc2 == Outside
    case ForStrong(n) => pc2 == Registering(Push(n))
    case ForServe => pc2 == Outside
  }

  lemma MissStep(t: nat, a: Action, sh: Shared, p: ClaimPc, sh2: Shared, pc2: Pc)
    requires ClaimStep(t, a, sh, p, sh2, pc2) && Missed(p.purpose, pc2)
    ensures p.word + 1 >= Words(|sh.states|) && WordBits(sh.bits, p.word) == {} && sh2.bits == sh.bits
  {
    match p.purpose
    case ForTry => case ForFast(_) => case ForTake => case ForStrong(_) => case ForServe =>
  }

  /** A scan gives up only after it has seen every word empty, each at some moment since it began:
      so do try_acquire before it answers that the pool is exhausted, and acquire before it joins the queue. */
  lemma ScanIsExhaustive(r: seq<State>, k: nat, t: nat, a: Action, w: nat)
    requires Run(r) && k + 1 < |r| && Moves(r[k], t, a, r[k + 1]) && t < |r[k].ths|
    requires r[k].ths[t].Claiming? && Missed(r[k].ths[t].atClaim.purpose, r[k + 1].ths[t])
    requires w < Words(|r[k].sh.states|)
    ensures SawEmpty(r, k, t, w)
  {
    hide Run, Next, Missed, SawEmpty, Words, WordBits;
    var p := r[k].ths[t].atClaim;
    MissStep(t, a, r[k].sh, p, r[k + 1].sh, r[k + 1].ths[t]);
    if w < p.word {
      ScanSaw(r, k, t, w);
    } else {
      SeesNow(r, k, t, w);
    }
  }

  // ------------------------------------------------------------------ what a count has seen

  /** In state `l`, when the count of thread `t` read the word of slot `i`, the slot was idle or not as `idle` says. */
  ghost predicate ReadAt(s: State, t: nat, i: nat, idle: bool) {
    t < |s.ths| && s.ths[t].Counting? && s.ths[t].word == Word(i) && (idle <==> i in s.sh.bits)
  }

  lemma CountMoves(t: nat, a: Action, sh: Shared, pc: Pc, sh2: Shared, pc2: Pc, i: nat)
    requires Step(t, a, sh, pc, sh2, pc2) && pc.Counting? && pc2.Counting?
    ensures pc2.word == pc.word + 1 && (Word(i) != pc.word ==> (i in pc2.seen <==> i in pc.seen))
    ensures Word(i) == pc.word && i !in pc.seen ==> (i in pc2.seen <==> i in sh.bits)
  {
  }

  /** The idle count of `stats`, whatever interleaves with it: it has counted slot `i` exactly if the slot was
      idle when its word was read, during the count. */
  lemma {:induction false} CountSaw(r: seq<State>, k: nat, t: nat, i: nat)
    requires Run(r) && k < |r| && t < |r[k].ths| && r[k].ths[t].Counting?
    ensures r[k].ths[t].count == |r[k].ths[t].seen|
    ensures Word(i) >= r[k].ths[t].word ==> i !in r[k].ths[t].seen
    ensures Word(i) < r[k].ths[t].word ==> exists l :: 0 <= l < k && ReadAt(r[l], t, i, i in r[k].ths[t].seen)
    decreases k
  {
    Invariant(r, k);
    assert Counted(r[k].sh, r[k].ths[t]);
    hide Inv, Next, Moves, Word;
    if k > 0 {
      var s, s2 := r[k - 1], r[k];
      RunNext(r, k - 1);
      if a: Action :| Moves(s, t, a, s2) {
        MoverSteps(s, t, a, s2);
        if s.ths[t].Counting? {
          CountMoves(t, a, s.sh, s.ths[t], s2.sh, s2.ths[t], i);
          CountSaw(r, k - 1, t, i);
          if Word(i) == s.ths[t].word {
            assert ReadAt(r[k - 1], t, i, i in s2.ths[t].seen);
          }
        } else {
          CountBegins(t, a, s.sh, s.ths[t], s2.sh, s2.ths[t]);
        }
      } else {
        StandsStill(s, s2, t);
        CountSaw(r, k - 1, t, i);
      }
    }
  }

  // ------------------------------------------------------------------ try_acquire

  /** Thread `t` is still at its try_acquire call. */
  ghost predicate Tries(sh: Shared, t: nat, pc: Pc) {
    match pc
    case Trying(_) => true
    case Claiming(p) => p.purpose.ForTry?
    case Reclaiming(p) => t in sh.answers && sh.answers[t] == Shut && sh.closed
    case _ => false
  }

  ghost predicate TryReturns(sh: Shared, t: nat, pc: Pc, sh2: Shared) {
    && t in sh2.answers
    && match sh2.answers[t]
       case Lent(i) => sh2.borrowed == sh.borrowed + multiset{i} && Holds(pc, i) && !sh.closed
       case Exhausted => sh2.borrowed == sh.borrowed && pc == Trying(TryEmpty) && !sh2.closed
       case Shut => sh2.borrowed == sh.borrowed && sh2.closed
       case TooLate => false
  }

  lemma TryProceeds(t: nat, a: Action, sh: Shared, pc: Pc, sh2: Shared, pc2: Pc)
    requires Step(t, a, sh, pc, sh2, pc2) && Tries(sh, t, pc)
    ensures if pc2 == Outside then TryReturns(sh, t, pc, sh2) else sh2.borrowed == sh.borrowed && Tries(sh2, t, pc2)
  {
    hide TryStep, ClaimStep;
    match pc
    case Trying(p) => TryingProceeds(t, a, sh, p, sh2, pc2);
    case Claiming(p) => TryScans(t, a, sh, p, sh2, pc2);
    case Reclaiming(_) =>
  }

  lemma TryingProceeds(t: nat, a: Action, sh: Shared, p: TryPc, sh2: Shared, pc2: Pc)
    requires TryStep(t, a, sh, p, sh2, pc2)
    ensures if pc2 == Outside then TryReturns(sh, t, Trying(p), sh2)
            else sh2.borrowed == sh.borrowed && Tries(sh2, t, pc2)
  {
  }

  lemma TryScans(t: nat, a: Action, sh: Shared, p: ClaimPc, sh2: Shared, pc2: Pc)
    requires ClaimStep(t, a, sh, p, sh2, pc2) && p.purpose.ForTry?
    ensures pc2 != Outside && sh2.borrowed == sh.borrowed && Tries(sh2, t, pc2)
  {
  }

  lemma NextTries(s: State, s2: State, t: nat)
    requires Inv(s) && Next(s, s2) && t < |s.ths| && t < |s2.ths| && Tries(s.sh, t, s.ths[t])
    ensures Acts(s, t, s2) && s2.ths[t] == Outside ==> TryReturns(s.sh, t, s.ths[t], s2.sh)
    ensures Acts(s, t, s2) && s2.ths[t] != Outside ==> s2.sh.borrowed == s.sh.borrowed && Tries(s2.sh, t, s2.ths[t])
    ensures !Acts(s, t, s2) ==> s2.ths[t] == s.ths[t] && Tries(s2.sh, t, s2.ths[t])
  {
    NextFollows(s, s2);
    hide Inv, Step, TryReturns, SameAnswer;
    if a: Action :| Moves(s, t, a, s2) {
      TryProceeds(t, a, s.sh, s.ths[t], s2.sh, s2.ths[t]);
    } else if q: nat, a: Action :| Moves(s, q, a, s2) {
      StepAnswers(q, a, s.sh, s.ths[q], s2.sh, s2.ths[q], t);
      TriesStill(s.sh, s2.sh, t, s.ths[t]);
    } else {
      TriesStill(s.sh, s2.sh, t, s.ths[t]);
    }
  }

  lemma TriesStill(sh: Shared, sh2: Shared, t: nat, pc: Pc)
    requires SameAnswer(sh, sh2, t) && (sh.closed ==> sh2.closed) && Tries(sh, t, pc)
    ensures Tries(sh2, t, pc)
  {
  }

  /** Between states `j` and `k` thread `t` makes one try_acquire call. */
  ghost predicate TryCalls(r: seq<State>, j: nat, k: nat, t: nat) {
    && Run(r) && j + 1 < k < |r|
    && (forall m :: j <= m <= k ==> t < |r[m].ths|)
    && r[j].ths[t] == Outside && r[j + 1].ths[t] == Trying(TryClosed) && r[k].ths[t] == Outside
    && (forall m :: j < m < k ==> r[m].ths[t] != Outside)
  }

  lemma {:induction false} InTry(r: seq<State>, j: nat, m: nat, k: nat, t: nat)
    requires TryCalls(r, j, k, t) && j < m < k
    ensures Tries(r[m].sh, t, r[m].ths[t])
    decreases m
  {
    hide Inv, Next, Acts, Moves, TryReturns;
    if m > j + 1 {
      InTry(r, j, m - 1, k, t);
      Invariant(r, m - 1);
      RunNext(r, m - 1);
      hide Run, Tries;
      NextTries(r[m - 1], r[m], t);
    }
  }

  /** A thread about to answer that the pool is exhausted has seen every word empty. */
  lemma {:induction false} EmptySaw(r: seq<State>, k: nat, t: nat, w: nat)
    requires Run(r) && k < |r| && t < |r[k].ths| && r[k].ths[t] == Trying(TryEmpty) && w < Words(|r[k].sh.states|)
    ensures SawEmpty(r, k, t, w)
    decreases k
  {
    hide Next, Moves, SawEmpty, Words;
    if k > 0 {
      var s, s2 := r[k - 1], r[k];
      RunNext(r, k - 1);
      SameSize(r, k - 1);
      if a: Action :| Moves(s, t, a, s2) {
        MoverSteps(s, t, a, s2);
        EmptyAfterScan(t, a, s.sh, s.ths[t], s2.sh);
        assert r[k - 1 + 1] == r[k];
        ScanIsExhaustive(r, k - 1, t, a, w);
      } else {
        StandsStill(s, s2, t);
        EmptySaw(r, k - 1, t, w);
      }
      StillSeen(r, k - 1, t, w);
    }
  }

  lemma SameSize(r: seq<State>, k: nat)
    requires Run(r) && k + 1 < |r|
    ensures |r[k + 1].sh.states| == |r[k].sh.states|
  {
    Invariant(r, k);
    RunNext(r, k);
    hide Run, Inv, Post;
    var s, s2 := r[k], r[k + 1];
    if t: nat, a: Action :| Moves(s, t, a, s2) {
      assert Protocol(s);
      MovePost(s, t, a, s2);
      PostGuarantee(s, t, s2);
    }
  }

  lemma EmptyAfterScan(t: nat, a: Action, sh: Shared, pc: Pc, sh2: Shared)
    requires Step(t, a, sh, pc, sh2, Trying(TryEmpty))
    ensures pc.Claiming? && Missed(pc.atClaim.purpose, Trying(TryEmpty))
  {
  }

  ghost predicate WasEmpty(r: seq<State>, j: nat, k: nat, w: nat)
    requires k <= |r|
  {
    exists l :: j < l < k && WordBits(r[l].sh.bits, w) == {}
  }

  /** What a call of `try_acquire` answers, in every run: one token more exactly when it answers with a slot,
      which it owned and rechecked in the open pool; exhaustion only in an open pool of which it saw every
      word empty during the call; otherwise shutdown, and then the pool is closed. */
  lemma TryAnswers(r: seq<State>, j: nat, k: nat, t: nat)
    requires TryCalls(r, j, k, t)
    ensures Acts(r[k - 1], t, r[k]) && t in r[k].sh.answers
    ensures forall i :: r[k].sh.answers[t] == Lent(i) ==>
              r[k].sh.borrowed == r[k - 1].sh.borrowed + multiset{i} && Holds(r[k - 1].ths[t], i) && !r[k - 1].sh.closed
    ensures !r[k].sh.answers[t].Lent? ==> r[k].sh.borrowed == r[k - 1].sh.borrowed
    ensures r[k].sh.answers[t] == Exhausted ==>
              && !r[k].sh.closed
              && forall w :: 0 <= w < Words(|r[k].sh.states|) ==> WasEmpty(r, j, k, w)
    ensures r[k].sh.answers[t] == Shut ==> r[k].sh.closed
    ensures r[k].sh.answers[t] != TooLate
  {
    hide Inv, Next, Moves, Acts, Words;
    var s, s2 := r[k - 1], r[k];
    InTry(r, j, k - 1, k, t);
    Invariant(r, k - 1);
    RunNext(r, k - 1);
    NextTries(s, s2, t);
    if s2.sh.answers[t] == Exhausted {
      SameSize(r, k - 1);
      forall w | 0 <= w < Words(|s2.sh.states|) ensures WasEmpty(r, j, k, w) {
        EmptySaw(r, k - 1, t, w);
        var l: nat :| SeenEmpty(r, l, k - 1, t, w);
        assert j < l;
        assert WordBits(r[l].sh.bits, w) == {};
      }
    }
  }
}
