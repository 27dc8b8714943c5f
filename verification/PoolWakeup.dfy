/**
 No wakeup is lost and no slot escapes shutdown. While the pool is open, a set idle bit
 and a demand for it (a queued waiter, or a thread that counted itself in the gate and
 scanned past the bit's word) imply a thread that will look at that word again. Once the
 pool is closed, a set bit implies the sweep has yet to reach it or its publisher has yet
 to reclaim it.
 */
module PoolWakeup {
  import opened PoolModel
  import opened PoolProtocol
  import opened PoolSteps
  import opened PoolInvariant
  import opened PoolPlaces

  ghost predicate AfterServes(after: After) {
    (after.AfterRetry? || after.AfterGive?) && after.sequel.ThenServe?
  }

  /** The thread has yet to recheck the gate, or to scan word `w` for the queued waiters. */
  ghost predicate Serves(pc: Pc, w: nat) {
    match pc
    case Releasing(p) => p.RelRecheck? || p.RelGateAgain?
    case Handing(p) => if p.Handoff? || p.HandoffLock? then p.sequel.ThenServe? else true
    case Completing(p) => if p.Give? then p.sequel.ThenServe? else AfterServes(p.after)
    case Claiming(p) => p.purpose.ForServe? && p.word <= w
    case _ => false
  }

  /** The thread is about to queue and will not look at word `w` again. */
  ghost predicate Passed(pc: Pc, w: nat) {
    match pc
    case Claiming(p) => p.purpose.ForStrong? && w < p.word
    case Registering(p) => p.Push?
    case _ => false
  }

  ghost predicate Demand(s: State, w: nat) {
    s.sh.queue != [] || (0 <= s.sh.owner < |s.ths| && Passed(s.ths[s.sh.owner], w))
  }

  ghost predicate Awaited(s: State, w: nat) {
    exists t :: 0 <= t < |s.ths| && Serves(s.ths[t], w)
  }

  ghost predicate NoLostWakeup(s: State) {
    !s.sh.closed ==> forall i :: i in s.sh.bits && Demand(s, Word(i)) ==> Awaited(s, Word(i))
  }

  /** The thread will exchange the word of bit `i`, or take the bit back. */
  ghost predicate Clears(pc: Pc, i: nat) {
    match pc
    case Sweeping(p) => (p.SweepWord? && p.word <= Word(i)) || (p.SweepBits? && p.word < Word(i))
    case Releasing(p) => p.RelRecheck? && p.index == i
    case Reclaiming(p) => (p.Reclaim? || p.ReclaimCas?) && p.index == i
    case _ => false
  }

  ghost predicate SweptOut(s: State) {
    s.sh.closed ==> forall i :: i in s.sh.bits ==> exists t :: 0 <= t < |s.ths| && Clears(s.ths[t], i)
  }

  /** The thread is the one closing the pool, and has not seen the queue empty yet. */
  ghost predicate Drains(pc: Pc) {
    pc.Sweeping? || (pc.Completing? && !pc.atComp.Give? && pc.atComp.after.AfterDrain?)
  }

  ghost predicate Drained(s: State) {
    s.sh.closed && s.sh.queue != [] ==> exists t :: 0 <= t < |s.ths| && Drains(s.ths[t])
  }

  // ------------------------------------------------------------------ one step

  /** Nobody waits for word `w`, or there is nothing in it. */
  ghost predicate Quenched(t: nat, sh2: Shared, pc2: Pc, w: nat) {
    || sh2.closed || sh2.gate == 0 || WordBits(sh2.bits, w) == {}
    || (sh2.queue == [] && (sh2.owner == t || sh2.owner == -1) && !Passed(pc2, w))
  }

  ghost predicate WakeMoves(t: nat, sh: Shared, pc: Pc, sh2: Shared, pc2: Pc, w: nat) {
    && (Serves(pc, w) || !(WordBits(sh2.bits, w) <= sh.bits) ==> Serves(pc2, w) || Quenched(t, sh2, pc2, w))
    && (Passed(pc2, w) && !Passed(pc, w) ==> WordBits(sh2.bits, w) == {})
    && (sh.queue == [] && sh2.queue != [] ==> Passed(pc, w))
  }

  ghost predicate CloseMoves(sh: Shared, pc: Pc, sh2: Shared, pc2: Pc, i: nat) {
    sh2.closed && i in sh2.bits && (i !in sh.bits || !sh.closed || Clears(pc, i)) ==> Clears(pc2, i)
  }

  ghost predicate DrainMoves(sh: Shared, pc: Pc, sh2: Shared, pc2: Pc) {
    sh2.closed && sh2.queue != [] && (!sh.closed || Drains(pc)) ==> Drains(pc2)
  }

  ghost predicate Watched(t: nat, sh: Shared, pc: Pc, sh2: Shared, pc2: Pc, i: nat) {
    WakeMoves(t, sh, pc, sh2, pc2, Word(i)) && CloseMoves(sh, pc, sh2, pc2, i) && DrainMoves(sh, pc, sh2, pc2)
  }

  ghost predicate BitsInRange(sh: Shared) {
    forall i :: i in sh.bits ==> Word(i) < Words(|sh.states|)
  }

  lemma TaggedInRange(sh: Shared, pc: Pc)
    requires Tagged(sh, pc)
    ensures BitsInRange(sh)
  {
    forall i | i in sh.bits ensures Word(i) < Words(|sh.states|) {
      assert Is(sh, i, Idle);
    }
  }

  lemma ObserveWatch(t: nat, sh: Shared, p: ClaimPc, sh2: Shared, pc2: Pc, i: nat)
    requires Observe(p.word, WordBits(sh.bits, p.word), p.purpose, sh, sh2, pc2) && BitsInRange(sh)
    ensures Watched(t, sh, Claiming(p), sh2, pc2, i)
  {
    assert Word(i) >= Words(|sh.states|) ==> WordBits(sh.bits, Word(i)) == {};
    match p.purpose
    case ForTry => case ForFast(_) => case ForTake => case ForStrong(_) => case ForServe =>
  }

  lemma ClaimWatch(t: nat, a: Action, sh: Shared, p: ClaimPc, sh2: Shared, pc2: Pc, i: nat)
    requires ClaimStep(t, a, sh, p, sh2, pc2) && BitsInRange(sh)
    ensures Watched(t, sh, Claiming(p), sh2, pc2, i)
  {
    if p.Scan? || a.Fail? || p.snap == {} || WordBits(sh.bits, p.word) != p.snap {
      ObserveWatch(t, sh, p, sh2, pc2, i);
    } else {
      match p.purpose
      case ForTry => case ForFast(_) => case ForTake => case ForStrong(_) => case ForServe =>
    }
  }

  lemma StrongWatch(t: nat, sh: Shared, j: nat, n: nat, sh2: Shared, pc2: Pc, i: nat)
    requires n < |sh.nodes| && StrongClaim(t, sh, j, n, sh2, pc2)
    ensures Watched(t, sh, Registering(StrongLate(j, n)), sh2, pc2, i)
  {
  }

  lemma SettledWatch(t: nat, sh: Shared, pc: Pc, n: nat, st: WaiterState, sh2: Shared, pc2: Pc, i: nat)
    requires pc == Registering(RegLock(n)) || pc == Registering(RegExpired(n))
    requires Settle(t, sh, n, st, sh2, pc2)
    ensures Watched(t, sh, pc, sh2, pc2, i)
  {
  }

  lemma RegisterWatch(t: nat, a: Action, sh: Shared, p: RegPc, sh2: Shared, pc2: Pc, i: nat)
    requires RegisterStep(t, a, sh, p, sh2, pc2)
    ensures Watched(t, sh, Registering(p), sh2, pc2, i)
  {
    hide StrongClaim, Settle;
    if p.StrongLate? {
      StrongWatch(t, sh, p.index, p.node, sh2, pc2, i);
    } else if p.RegLock? && sh.nodes[p.node].state != Cancelled && sh.closed {
      SettledWatch(t, sh, Registering(p), p.node, ShutDown, sh2, pc2, i);
    } else if p.RegExpired? && Expired(sh.nodes[p.node].deadline, sh.now) {
      SettledWatch(t, sh, Registering(p), p.node, TimedOut, sh2, pc2, i);
    }
  }

  lemma ReleaseWatch(t: nat, a: Action, sh: Shared, p: RelPc, sh2: Shared, pc2: Pc, i: nat)
    requires ReleaseStep(t, a, sh, p, sh2, pc2)
    ensures Watched(t, sh, Releasing(p), sh2, pc2, i)
  {
  }

  lemma ReclaimWatch(t: nat, a: Action, sh: Shared, p: RecPc, sh2: Shared, pc2: Pc, i: nat)
    requires ReclaimStep(t, a, sh, p, sh2, pc2)
    ensures Watched(t, sh, Reclaiming(p), sh2, pc2, i)
  {
  }

  lemma TakeWatch(t: nat, a: Action, sh: Shared, p: TakePc, sh2: Shared, pc2: Pc, i: nat)
    requires TakeStep(t, a, sh, p, sh2, pc2)
    ensures Watched(t, sh, Taking(p), sh2, pc2, i)
  {
  }

  lemma HandoffWatch(t: nat, a: Action, sh: Shared, p: HandPc, sh2: Shared, pc2: Pc, i: nat)
    requires HandoffStep(t, a, sh, p, sh2, pc2) && (sh.owner == t <==> HasMutex(Handing(p)))
    ensures Watched(t, sh, Handing(p), sh2, pc2, i)
  {
    if p.Handoff? {
      match p.sequel
      case ThenReturn => case ThenServe => case ThenSubmit(_) =>
    }
  }

  lemma HandOverWatch(t: nat, a: Action, sh: Shared, p: CompPc, sh2: Shared, pc2: Pc, i: nat)
    requires p.Notify? || p.Submit?
    requires CompleteStep(t, a, sh, p, sh2, pc2)
    ensures Watched(t, sh, Completing(p), sh2, pc2, i)
  {
    match p.after
    case AfterRetry(_, _) =>
    case AfterGive(h) => match h { case ThenReturn => case ThenServe => case ThenSubmit(_) => }
    case AfterDrain =>
    case AfterSelect =>
  }

  lemma CompleteWatch(t: nat, a: Action, sh: Shared, p: CompPc, sh2: Shared, pc2: Pc, i: nat)
    requires CompleteStep(t, a, sh, p, sh2, pc2)
    ensures Watched(t, sh, Completing(p), sh2, pc2, i)
  {
    if p.Notify? || p.Submit? {
      hide Watched;
      HandOverWatch(t, a, sh, p, sh2, pc2, i);
    }
  }

  lemma SweepWatch(t: nat, a: Action, sh: Shared, p: SweepPc, sh2: Shared, pc2: Pc, i: nat)
    requires SweepStep(t, a, sh, p, sh2, pc2) && BitsInRange(sh)
    ensures Watched(t, sh, Sweeping(p), sh2, pc2, i)
  {
  }

  lemma SettleWatch(t: nat, a: Action, sh: Shared, p: SettlePc, sh2: Shared, pc2: Pc, i: nat)
    requires SettleStep(t, a, sh, p, sh2, pc2)
    ensures Watched(t, sh, Settling(p), sh2, pc2, i)
  {
  }

  lemma TokenWatch(t: nat, c: TokenAction, sh: Shared, sh2: Shared, pc2: Pc, i: nat)
    requires TokenStep(t, c, sh, sh2, pc2)
    ensures Watched(t, sh, Outside, sh2, pc2, i)
  {
  }

  lemma BeginWatch(t: nat, c: CallAction, sh: Shared, sh2: Shared, pc2: Pc, i: nat)
    requires BeginStep(t, c, sh, sh2, pc2)
    ensures Watched(t, sh, Outside, sh2, pc2, i)
  {
  }

  lemma EventWatch(t: nat, c: EventAction, sh: Shared, sh2: Shared, pc2: Pc, i: nat)
    requires EventStep(t, c, sh, sh2, pc2)
    ensures Watched(t, sh, Outside, sh2, pc2, i)
  {
  }

  lemma OutsideWatch(t: nat, a: Action, sh: Shared, sh2: Shared, pc2: Pc, i: nat)
    requires OutsideStep(t, a, sh, sh2, pc2)
    ensures Watched(t, sh, Outside, sh2, pc2, i)
  {
    hide BeginStep, TokenStep, EventStep, Watched;
    match a
    case Start(c) => BeginWatch(t, c, sh, sh2, pc2, i);
    case Use(c) => TokenWatch(t, c, sh, sh2, pc2, i);
    case Event(c) => EventWatch(t, c, sh, sh2, pc2, i);
  }

  lemma RestWatch(t: nat, a: Action, sh: Shared, pc: Pc, sh2: Shared, pc2: Pc, i: nat)
    requires pc.Trying? || pc.Acquiring? || pc.Sleeping? || pc.Counting?
    requires Step(t, a, sh, pc, sh2, pc2)
    ensures Watched(t, sh, pc, sh2, pc2, i)
  {
    hide TryStep, AcquireStep, SleepStep, Watched;
    match pc
    case Trying(p) => TryWatch(t, a, sh, p, sh2, pc2, i);
    case Acquiring(p) => AcquireWatch(t, a, sh, p, sh2, pc2, i);
    case Sleeping(p) => SleepWatch(t, a, sh, p, sh2, pc2, i);
    case Counting(_, _, _) => CountWatch(t, a, sh, pc, sh2, pc2, i);
  }

  lemma SleepWatch(t: nat, a: Action, sh: Shared, p: SleepPc, sh2: Shared, pc2: Pc, i: nat)
    requires SleepStep(t, a, sh, p, sh2, pc2)
    ensures Watched(t, sh, Sleeping(p), sh2, pc2, i)
  {
  }

  lemma CountWatch(t: nat, a: Action, sh: Shared, pc: Pc, sh2: Shared, pc2: Pc, i: nat)
    requires pc.Counting? && CountStep(t, a, sh, pc, sh2, pc2)
    ensures Watched(t, sh, pc, sh2, pc2, i)
  {
  }

  lemma TryWatch(t: nat, a: Action, sh: Shared, p: TryPc, sh2: Shared, pc2: Pc, i: nat)
    requires TryStep(t, a, sh, p, sh2, pc2)
    ensures Watched(t, sh, Trying(p), sh2, pc2, i)
  {
  }

  lemma AcquireWatch(t: nat, a: Action, sh: Shared, p: AcqPc, sh2: Shared, pc2: Pc, i: nat)
    requires AcquireStep(t, a, sh, p, sh2, pc2)
    ensures Watched(t, sh, Acquiring(p), sh2, pc2, i)
  {
    hide Expired;
  }

  lemma StepWatch(t: nat, a: Action, sh: Shared, pc: Pc, sh2: Shared, pc2: Pc, i: nat)
    requires Step(t, a, sh, pc, sh2, pc2) && BitsInRange(sh) && (sh.owner == t <==> HasMutex(pc))
    ensures Watched(t, sh, pc, sh2, pc2, i)
  {
    hide BitsInRange, HasMutex, Watched, OutsideStep, TryStep, AcquireStep, ClaimStep, RegisterStep,
         SleepStep, ReleaseStep, ReclaimStep, TakeStep, HandoffStep, CompleteStep, SweepStep, SettleStep, CountStep;
    match pc
    case Outside => OutsideWatch(t, a, sh, sh2, pc2, i);
    case Claiming(p) => ClaimWatch(t, a, sh, p, sh2, pc2, i);
    case Registering(p) => RegisterWatch(t, a, sh, p, sh2, pc2, i);
    case Releasing(p) => ReleaseWatch(t, a, sh, p, sh2, pc2, i);
    case Reclaiming(p) => ReclaimWatch(t, a, sh, p, sh2, pc2, i);
    case Taking(p) => TakeWatch(t, a, sh, p, sh2, pc2, i);
    case Handing(p) => HandoffWatch(t, a, sh, p, sh2, pc2, i);
    case Completing(p) => CompleteWatch(t, a, sh, p, sh2, pc2, i);
    case Sweeping(p) => SweepWatch(t, a, sh, p, sh2, pc2, i);
    case Settling(p) => SettleWatch(t, a, sh, p, sh2, pc2, i);
    case _ => RestWatch(t, a, sh, pc, sh2, pc2, i);
  }

  /** Passing a word presupposes having counted oneself in the gate. */
  lemma PassedOwes(pc: Pc, w: nat)
    requires Passed(pc, w)
    ensures Owes(pc)
  {
  }

  lemma NoDemand(s: State, t: nat, w: nat)
    requires Protocol(s) && t < |s.ths| && Quenched(t, s.sh, s.ths[t], w)
    requires !s.sh.closed && WordBits(s.sh.bits, w) != {}
    ensures !Demand(s, w)
  {
    hide QueueOk, Ok, Contracted;
    if 0 <= s.sh.owner < |s.ths| && Passed(s.ths[s.sh.owner], w) {
      PassedOwes(s.ths[s.sh.owner], w);
    }
  }

  lemma WakeupMove(s: State, t: nat, a: Action, s2: State, i: nat)
    requires Protocol(s) && Protocol(s2) && BitsInRange(s.sh) && NoLostWakeup(s) && Moves(s, t, a, s2)
    requires Guarantee(t, s.sh, s2.sh) && !s2.sh.closed && i in s2.sh.bits && Demand(s2, Word(i))
    ensures Awaited(s2, Word(i))
  {
    hide Step, QueueOk, Ok, Contracted, CallHasThread;
    var w := Word(i);
    assert Ready(t, s.sh, s.ths[t]);
    StepWatch(t, a, s.sh, s.ths[t], s2.sh, s2.ths[t], i);
    assert i in WordBits(s2.sh.bits, w);
    if Serves(s2.ths[t], w) {
    } else {
      if Quenched(t, s2.sh, s2.ths[t], w) {
        NoDemand(s2, t, w);
      }
      assert i in s.sh.bits;
      assert Demand(s, w);
      var q :| 0 <= q < |s.ths| && Serves(s.ths[q], w);
      assert q != t && s2.ths[q] == s.ths[q];
    }
  }

  lemma ClosureMove(s: State, t: nat, a: Action, s2: State, i: nat)
    requires Protocol(s) && BitsInRange(s.sh) && SweptOut(s) && Moves(s, t, a, s2)
    requires s2.sh.closed && i in s2.sh.bits
    ensures exists q :: 0 <= q < |s2.ths| && Clears(s2.ths[q], i)
  {
    hide Step, QueueOk, Ok, Contracted, CallHasThread, WakeMoves;
    assert Ready(t, s.sh, s.ths[t]);
    StepWatch(t, a, s.sh, s.ths[t], s2.sh, s2.ths[t], i);
    if !Clears(s2.ths[t], i) {
      var q :| 0 <= q < |s.ths| && Clears(s.ths[q], i);
      assert q != t && s2.ths[q] == s.ths[q];
    }
  }

  /** Closure forbids new waiters, so the drain only ever shortens the queue. */
  lemma DrainMove(s: State, t: nat, a: Action, s2: State)
    requires Protocol(s) && BitsInRange(s.sh) && Drained(s) && Moves(s, t, a, s2) && s2.sh.closed && s2.sh.queue != []
    ensures exists q :: 0 <= q < |s2.ths| && Drains(s2.ths[q])
  {
    hide Step, QueueOk, Contracted, CallHasThread, CloseMoves;
    assert Ready(t, s.sh, s.ths[t]);
    StepWatch(t, a, s.sh, s.ths[t], s2.sh, s2.ths[t], 0);
    if !Drains(s2.ths[t]) {
      assert s.sh.closed && s.sh.queue != [];
      var q :| 0 <= q < |s.ths| && Drains(s.ths[q]);
      assert q != t && s2.ths[q] == s.ths[q];
    }
  }
}
