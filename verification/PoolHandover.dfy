/**
 What giving slots back, waking, cancelling, taking stock and shutting down do when no other thread
 moves before they return.
 */
module PoolHandover {
  import opened Basics
  import opened PoolModel
  import opened PoolProtocol
  import opened PoolPlaces
  import opened PoolTheorems
  import opened PoolAlone

  // ------------------------------------------------------------------ telling a waiter

  /** A waiter that was unlinked by thread `t` with outcome `st` and told so. */
  ghost function Told(node: Node, t: nat, st: WaiterState, stopping: set<nat>): Node {
    match node.kind
    case Sync => node.(state := st, selector := t, pinned := false, notified := true)
    case Async(c) => node.(state := st, selector := t, posted := c !in stopping)
  }

  ghost function Tell(t: nat, sh: Shared, n: nat, st: WaiterState): Shared
    requires n < |sh.nodes|
  {
    sh.(nodes := sh.nodes[n := Told(sh.nodes[n], t, st, sh.stopping)], queue := Without(sh.queue, n),
        gate := sh.gate - 1, owner := -1)
  }

  ghost predicate Free(sh: Shared) {
    forall c :: c in sh.stopping ==> c in sh.stopped
  }

  /** A queue of waiters, each there once. */
  ghost predicate Listed(sh: Shared) {
    Distinct(sh.queue) && (forall k :: 0 <= k < |sh.queue| ==> sh.queue[k] < |sh.nodes|)
  }

  lemma CalmIsListed(sh: Shared)
    requires Calm(sh)
    ensures Listed(sh) && Free(sh)
  {
  }

  lemma NotifyAlone(t: nat, sh: Shared, n: nat, st: WaiterState, after: After)
    requires n < |sh.nodes| && sh.nodes[n].kind == Sync
    ensures var u := Unlink(sh, t, n, st).(owner := -1);
            Reaches(t, SetNode(u, n, u.nodes[n].(pinned := true)), Completing(Notify(n, after)),
                    Tell(t, sh, n, st), Resume(after))
  {
    hide Reaches, Without, Resume;
    var u := Unlink(sh, t, n, st).(owner := -1);
    var v, got := SetNode(u, n, u.nodes[n].(pinned := true)), Tell(t, sh, n, st);
    assert got.nodes == v.nodes[n := v.nodes[n].(notified := true, pinned := false)];
    OneStep(t, v, Completing(Notify(n, after)), got, Resume(after));
  }

  lemma PostAlone(t: nat, sh: Shared, n: nat, st: WaiterState, after: After)
    requires n < |sh.nodes| && sh.nodes[n].kind.Async? && Free(sh)
    ensures var u := Unlink(sh, t, n, st).(owner := -1);
            Reaches(t, u, Completing(Submit(n, after)), Tell(t, sh, n, st), Resume(after))
  {
    hide Reaches, Without, Resume;
    var u, got := Unlink(sh, t, n, st).(owner := -1), Tell(t, sh, n, st);
    assert got.nodes == u.nodes[n := u.nodes[n].(posted := u.nodes[n].kind.context !in u.stopping)];
    OneStep(t, u, Completing(Submit(n, after)), got, Resume(after));
  }

  /** Once selected, a waiter is told its outcome. */
  lemma SelectAndTell(t: nat, sh: Shared, n: nat, st: WaiterState, after: After) returns (u: Shared, pc: Pc)
    requires n < |sh.nodes| && Free(sh)
    ensures CompleteNode(t, sh, n, st, after, u, pc)
    ensures Reaches(t, u, pc, Tell(t, sh, n, st), Resume(after))
  {
    hide Reaches, Resume, Tell, Unlink;
    u := Unlink(sh, t, n, st).(owner := -1);
    assert |u.nodes| == |sh.nodes| by { SelectKeeps(t, sh, n, st); }
    if sh.nodes[n].kind.Sync? {
      NotifyAlone(t, sh, n, st, after);
      u, pc := SetNode(u, n, u.nodes[n].(pinned := true)), Completing(Notify(n, after));
    } else {
      PostAlone(t, sh, n, st, after);
      pc := Completing(Submit(n, after));
    }
  }

  lemma SelectKeeps(t: nat, sh: Shared, n: nat, st: WaiterState)
    requires n < |sh.nodes|
    ensures |Unlink(sh, t, n, st).nodes| == |sh.nodes|
  {
  }

  lemma TellAlone(t: nat, sh: Shared, n: nat, st: WaiterState, after: After)
    requires n < |sh.nodes| && Free(sh)
    ensures Reaches(t, sh, Completing(Complete(n, st, after)), Tell(t, sh, n, st), Resume(after))
  {
    hide Reaches, Resume, CompleteNode;
    var u, pc := SelectAndTell(t, sh, n, st, after);
    StepThen(t, sh, Completing(Complete(n, st, after)), u, pc, Tell(t, sh, n, st), Resume(after));
  }

  lemma GiveAlone(t: nat, sh: Shared, n: nat, i: nat, h: Sequel)
    requires n < |sh.nodes| && Free(sh)
    ensures Reaches(t, sh, Completing(Give(n, i, h)), Tell(t, SetNode(sh, n, sh.nodes[n].(slot := i)), n, Assigned),
                    AfterHandoff(h))
  {
    hide Reaches, CompleteNode;
    var w := SetNode(sh, n, sh.nodes[n].(slot := i));
    var u, pc := SelectAndTell(t, w, n, Assigned, AfterGive(h));
    StepThen(t, sh, Completing(Give(n, i, h)), u, pc, Tell(t, w, n, Assigned), AfterHandoff(h));
  }

  // ------------------------------------------------------------------ handing a slot over

  /** What becomes of waiter `n` when the first `k` waiters are passed over and the next one is served. */
  ghost function Served(t: nat, sh: Shared, i: nat, k: nat, n: nat): Node
    requires k <= |sh.queue| && n < |sh.nodes|
  {
    if n in sh.queue[..k] then Told(sh.nodes[n], t, TimedOut, sh.stopping)
    else if k < |sh.queue| && n == sh.queue[k] then Told(sh.nodes[n].(slot := i), t, Assigned, sh.stopping)
    else sh.nodes[n]
  }

  /** Slot `i` goes to the oldest waiter whose deadline has not passed. The waiters before it time out. If there
      is no such waiter the slot becomes idle. */
  ghost predicate HandsOver(t: nat, sh: Shared, i: nat, k: nat, sh2: Shared) {
    && i < |sh.states| && k <= |sh.queue| && Listed(sh)
    && (forall m :: 0 <= m < k ==> Expired(sh.nodes[sh.queue[m]].deadline, sh.now))
    && (k < |sh.queue| ==> !Expired(sh.nodes[sh.queue[k]].deadline, sh.now))
    && |sh2.nodes| == |sh.nodes| && (forall n :: 0 <= n < |sh.nodes| ==> sh2.nodes[n] == Served(t, sh, i, k, n))
    && sh2 == (if k < |sh.queue|
               then sh.(nodes := sh2.nodes, queue := sh.queue[k + 1..], gate := sh.gate - k - 1, owner := -1)
               else sh.(nodes := sh2.nodes, queue := [], gate := sh.gate - k, owner := -1,
                        states := sh.states[i := Idle], bits := sh.bits + {i}))
  }

  lemma HeadOut(q: seq<nat>)
    requires q != []
    ensures Without(q, q[0]) == q[1..]
  {
  }

  lemma HeadTold(t: nat, sh: Shared, st: WaiterState)
    requires Listed(sh) && sh.queue != []
    ensures var sh1 := Tell(t, sh, sh.queue[0], st);
            Listed(sh1) && sh1.queue == sh.queue[1..]
            && forall k :: 0 <= k < |sh1.queue| ==> sh1.nodes[sh1.queue[k]] == sh.nodes[sh.queue[k + 1]]
  {
    HeadOut(sh.queue);
  }

  /** Once the head is passed over, the rest is served as a queue of its own. */
  lemma PassOver(t: nat, sh: Shared, i: nat, k: nat, sh2: Shared)
    requires Listed(sh) && sh.queue != [] && Expired(sh.nodes[sh.queue[0]].deadline, sh.now)
    requires HandsOver(t, Tell(t, sh, sh.queue[0], TimedOut).(owner := t), i, k, sh2)
    ensures HandsOver(t, sh, i, k + 1, sh2)
  {
    var q := sh.queue;
    var sh1 := Tell(t, sh, q[0], TimedOut).(owner := t);
    HeadTold(t, sh, TimedOut);
    hide Without, Expired;
    assert sh1.queue[..k] == q[1..k + 1] && q[..k + 1] == [q[0]] + q[1..k + 1];
    forall n | 0 <= n < |sh.nodes| ensures sh2.nodes[n] == Served(t, sh, i, k + 1, n) {
      assert sh2.nodes[n] == Served(t, sh1, i, k, n);
    }
    forall m | 0 <= m < k + 1 ensures Expired(sh.nodes[q[m]].deadline, sh.now) {
      if m > 0 {
        assert sh1.queue[m - 1] == q[m] && Expired(sh1.nodes[sh1.queue[m - 1]].deadline, sh1.now);
      }
    }
    if k < |sh1.queue| {
      assert sh1.queue[k + 1..] == q[k + 2..];
    }
  }

  lemma HeadServed(t: nat, sh: Shared, i: nat) returns (sh2: Shared)
    requires Listed(sh) && sh.queue != [] && !Expired(sh.nodes[sh.queue[0]].deadline, sh.now) && i < |sh.states|
    ensures sh2 == Tell(t, SetNode(sh, sh.queue[0], sh.nodes[sh.queue[0]].(slot := i)), sh.queue[0], Assigned)
    ensures HandsOver(t, sh, i, 0, sh2)
  {
    hide Expired;
    HeadOut(sh.queue);
    sh2 := Tell(t, SetNode(sh, sh.queue[0], sh.nodes[sh.queue[0]].(slot := i)), sh.queue[0], Assigned);
  }

  /** Where a handoff leaves its thread: a serving thread takes the mutex again. */
  ghost function Landing(h: Sequel): Pc {
    match h
    case ThenReturn => Outside
    case ThenServe => Handing(ServeLoop)
    case ThenSubmit(n) => Settling(SubmitInit(n))
  }

  ghost function Landed(t: nat, h: Sequel, sh: Shared): Shared {
    if h.ThenServe? then sh.(owner := t) else sh
  }

  /** The last step of a handoff, with or without the mutex. */
  lemma LandingAlone(t: nat, h: Sequel, sh: Shared)
    requires sh.owner == -1
    ensures Reaches(t, sh, AfterHandoff(h), Landed(t, h, sh), Landing(h))
    ensures KeepHandoff(h, sh.(owner := t), Landed(t, h, sh), Landing(h))
  {
    hide Reaches;
    if h.ThenServe? {
      OneStep(t, sh, Handing(ServeLock), sh.(owner := t), Handing(ServeLoop));
    } else {
      Arrived(t, sh, AfterHandoff(h));
    }
  }

  lemma {:induction false} HandoffAlone(t: nat, sh: Shared, i: nat, h: Sequel) returns (k: nat, sh2: Shared)
    requires Listed(sh) && Free(sh) && sh.owner == t && i < |sh.states|
    ensures Reaches(t, sh, Handing(Handoff(i, h)), Landed(t, h, sh2), Landing(h))
    ensures sh.closed ==> sh2 == Quarantine(sh, i).(owner := -1)
    ensures !sh.closed ==> HandsOver(t, sh, i, k, sh2)
    decreases |sh.queue|
  {
    hide Reaches, Expired, Without, KeepHandoff, AfterHandoff, Landing, Landed;
    var pc := Handing(Handoff(i, h));
    k := 0;
    if sh.closed || sh.queue == [] {
      sh2 := (if sh.closed then Quarantine(sh, i) else PublishBit(sh, i)).(owner := -1);
      LandingAlone(t, h, sh2);
      OneStep(t, sh, pc, Landed(t, h, sh2), Landing(h));
    } else {
      var n := sh.queue[0];
      if Expired(sh.nodes[n].deadline, sh.now) {
        var sh1 := Tell(t, sh, n, TimedOut);
        HeadTold(t, sh, TimedOut);
        k, sh2 := HandoffAlone(t, sh1.(owner := t), i, h);
        PassOver(t, sh, i, k, sh2);
        k := k + 1;
        var got, end := Landed(t, h, sh2), Landing(h);
        StepThen(t, sh1, Handing(HandoffLock(i, h)), sh1.(owner := t), pc, got, end);
        var tell := Completing(Complete(n, TimedOut, AfterRetry(i, h)));
        TellAlone(t, sh, n, TimedOut, AfterRetry(i, h));
        Onward(t, sh, tell, sh1, Handing(HandoffLock(i, h)), got, end);
        StepThen(t, sh, pc, sh, tell, got, end);
      } else {
        sh2 := HeadServed(t, sh, i);
        LandingAlone(t, h, sh2);
        GiveAlone(t, sh, n, i, h);
        Onward(t, sh, Completing(Give(n, i, h)), sh2, AfterHandoff(h), Landed(t, h, sh2), Landing(h));
        StepThen(t, sh, pc, sh, Completing(Give(n, i, h)), Landed(t, h, sh2), Landing(h));
      }
    }
  }

  // ------------------------------------------------------------------ serving the queue

  /** What becomes of waiter `n` when the first `m` waiters of the queue are served. */
  ghost predicate ServedAs(sh: Shared, m: nat, n: nat, node: Node)
    requires m <= |sh.queue| && n < |sh.nodes|
  {
    if n in sh.queue[..m]
    then node.state == if Expired(sh.nodes[n].deadline, sh.now) then TimedOut else Assigned
    else node == sh.nodes[n]
  }

  /** The first `m` waiters got a slot each, or timed out if their deadline had passed; nobody else was touched. */
  ghost predicate Serves(sh: Shared, m: nat, sh2: Shared) {
    && m <= |sh.queue| && Listed(sh) && sh2.queue == sh.queue[m..] && |sh2.nodes| == |sh.nodes|
    && (forall n :: 0 <= n < |sh.nodes| ==> ServedAs(sh, m, n, sh2.nodes[n]))
    && sh2.bits <= sh.bits && sh2.now == sh.now && sh2.closed == sh.closed && |sh2.states| == |sh.states|
    && sh2.stopping == sh.stopping && sh2.stopped == sh.stopped
  }

  lemma HandoverServes(t: nat, sh: Shared, k: nat, sh1: Shared) returns (m: nat)
    requires Listed(sh) && sh.bits != {} && Lowest(sh.bits) < |sh.states|
    requires HandsOver(t, Claimed(sh), Lowest(sh.bits), k, sh1)
    ensures m == (if k < |sh.queue| then k + 1 else k) && Serves(sh, m, sh1) && Listed(sh1)
  {
    hide Expired;
    var u, i := Claimed(sh), Lowest(sh.bits);
    m := if k < |sh.queue| then k + 1 else k;
    assert m == k + 1 ==> sh.queue[..m] == sh.queue[..k] + [sh.queue[k]];
    forall n | 0 <= n < |sh.nodes| ensures ServedAs(sh, m, n, sh1.nodes[n]) {
      assert sh1.nodes[n] == Served(t, u, i, k, n);
      if n in sh.queue[..k] {
        var j :| 0 <= j < k && sh.queue[j] == n;
        assert Expired(u.nodes[u.queue[j]].deadline, u.now);
      }
    }
  }

  lemma ServesOn(sh: Shared, a: nat, sh1: Shared, b: nat, sh2: Shared)
    requires Serves(sh, a, sh1) && Serves(sh1, b, sh2)
    ensures Serves(sh, a + b, sh2)
  {
    hide Expired;
    var q := sh.queue;
    assert forall x, y :: 0 <= x < a && 0 <= y < b ==> q[x] != sh1.queue[y];
    assert q[..a + b] == q[..a] + sh1.queue[..b] && sh1.queue[b..] == q[a + b..];
    forall n | 0 <= n < |sh.nodes| ensures ServedAs(sh, a + b, n, sh2.nodes[n]) {
      assert ServedAs(sh, a, n, sh1.nodes[n]) && ServedAs(sh1, b, n, sh2.nodes[n]);
    }
  }

  /** serve_waiters_locked alone: it serves waiters in order until none is left or no slot is idle. */
  lemma {:induction false} ServeAlone(t: nat, sh: Shared) returns (m: nat, sh2: Shared)
    requires Listed(sh) && Free(sh) && sh.owner == t && |sh.states| > 0
    requires forall i :: i in sh.bits ==> i < |sh.states|
    ensures Reaches(t, sh, Handing(ServeLoop), sh2, Outside) && sh2.owner == -1
    ensures sh.closed ==> sh2 == sh.(owner := -1)
    ensures !sh.closed ==> Serves(sh, m, sh2) && (sh2.queue == [] || sh2.bits == {})
    decreases |sh.queue|
  {
    hide Reaches, Expired, Lowest, Without, HandsOver, ServedAs;
    var pc, scan := Handing(ServeLoop), Claiming(Scan(0, ForServe));
    m := 0;
    if sh.closed || sh.queue == [] {
      sh2 := sh.(owner := -1);
      OneStep(t, sh, pc, sh2, Outside);
      ServesNone(sh);
    } else {
      FindAlone(t, sh, ForServe);
      if sh.bits == {} {
        sh2 := sh.(owner := -1);
        ServesNone(sh);
      } else {
        var u, i := Claimed(sh), Lowest(sh.bits);
        var k, sh1 := HandoffAlone(t, u, i, ThenServe);
        m := HandoverServes(t, sh, k, sh1);
        var more;
        more, sh2 := ServeAlone(t, sh1.(owner := t));
        ServesUnlocked(sh1.(owner := t), sh1, more, sh2);
        ServesOn(sh, m, sh1, more, sh2);
        m := m + more;
        Onward(t, u, Handing(Handoff(i, ThenServe)), sh1.(owner := t), pc, sh2, Outside);
        Onward(t, sh, scan, u, Handing(Handoff(i, ThenServe)), sh2, Outside);
      }
      StepThen(t, sh, pc, sh, scan, sh2, Outside);
    }
  }

  lemma ServesNone(sh: Shared)
    requires Listed(sh)
    ensures Serves(sh, 0, sh.(owner := -1))
  {
  }

  lemma ServesUnlocked(v: Shared, sh: Shared, m: nat, sh2: Shared)
    requires Serves(v, m, sh2) && v == sh.(owner := v.owner)
    ensures Serves(sh, m, sh2)
  {
    hide Expired;
    forall n | 0 <= n < |sh.nodes| ensures ServedAs(sh, m, n, sh2.nodes[n]) {
      assert ServedAs(v, m, n, sh2.nodes[n]);
    }
  }

  /** A publisher that finds the pool closed after it set its bit, alone: it takes the slot back and quarantines
      it, unless the sweep has it. */
  lemma ReclaimAlone(t: nat, sh: Shared, i: nat) returns (sh2: Shared)
    requires sh.owner == -1 && i < |sh.states|
    ensures Reaches(t, sh, Reclaiming(Reclaim(i)), sh2, Outside)
    ensures i !in sh.bits ==> sh2 == sh
    ensures i in sh.bits ==> sh2 == sh.(states := sh.states[i := Quarantined], bits := sh.bits - {i},
                                        usable := sh.usable - 1, quarantined := sh.quarantined + [i])
  {
    hide Reaches;
    if i in sh.bits {
      var snap := WordBits(sh.bits, Word(i));
      var u := SetState(sh, i, Borrowed).(bits := sh.bits - {i});
      sh2 := Quarantine(u, i);
      assert sh2.states == sh.states[i := Quarantined];
      OneStep(t, u, Reclaiming(QuarLock(i)), sh2, Outside);
      StepThen(t, sh, Reclaiming(ReclaimCas(i, snap)), u, Reclaiming(QuarLock(i)), sh2, Outside);
      StepThen(t, sh, Reclaiming(Reclaim(i)), sh, Reclaiming(ReclaimCas(i, snap)), sh2, Outside);
    } else {
      sh2 := sh;
      OneStep(t, sh, Reclaiming(Reclaim(i)), sh2, Outside);
    }
  }

  /** release alone: a closed pool quarantines the slot, an open one hands it over. */
  lemma ReleaseAlone(t: nat, sh: Shared, i: nat) returns (k: nat, sh2: Shared)
    requires Calm(sh) && i < |sh.states|
    ensures Reaches(t, sh, Releasing(RelClosed(i)), sh2, Outside)
    ensures sh.closed ==> sh2 == sh.(states := sh.states[i := Quarantined], usable := sh.usable - 1,
                                     quarantined := sh.quarantined + [i])
    ensures !sh.closed ==> HandsOver(t, sh, i, k, sh2)
  {
    hide Reaches, Expired, QueueOk;
    CalmIsListed(sh);
    if sh.closed || sh.gate != 0 {
      var v := sh.(owner := t);
      k, sh2 := HandoffAlone(t, v, i, ThenReturn);
      StepThen(t, sh, Releasing(RelLock(i)), v, Handing(Handoff(i, ThenReturn)), sh2, Outside);
      if sh.closed {
        StepThen(t, sh, Releasing(RelClosed(i)), sh, Releasing(RelLock(i)), sh2, Outside);
      } else {
        StepThen(t, sh, Releasing(RelGate(i)), sh, Releasing(RelLock(i)), sh2, Outside);
        StepThen(t, sh, Releasing(RelClosed(i)), sh, Releasing(RelGate(i)), sh2, Outside);
        SameHandover(t, v, sh, i, k, sh2);
      }
    } else {
      k, sh2 := 0, PublishBit(sh, i);
      OneStep(t, sh2, Releasing(RelGateAgain), sh2, Outside);
      StepThen(t, sh2, Releasing(RelRecheck(i)), sh2, Releasing(RelGateAgain), sh2, Outside);
      StepThen(t, sh, Releasing(RelPublish(i)), sh2, Releasing(RelRecheck(i)), sh2, Outside);
      StepThen(t, sh, Releasing(RelGate(i)), sh, Releasing(RelPublish(i)), sh2, Outside);
      StepThen(t, sh, Releasing(RelClosed(i)), sh, Releasing(RelGate(i)), sh2, Outside);
    }
  }

  lemma SameHandover(t: nat, v: Shared, sh: Shared, i: nat, k: nat, sh2: Shared)
    requires HandsOver(t, v, i, k, sh2) && v == sh.(owner := v.owner)
    ensures HandsOver(t, sh, i, k, sh2)
  {
    hide Expired;
    forall n | 0 <= n < |sh.nodes| ensures sh2.nodes[n] == Served(t, sh, i, k, n) {
      assert sh2.nodes[n] == Served(t, v, i, k, n);
    }
  }

  /** publish alone, of a filled reservation: refused in a closed pool, else the slot is handed over. */
  lemma PublishAlone(t: nat, sh: Shared, i: nat, sh1: Shared, pc1: Pc) returns (k: nat, sh2: Shared)
    requires Calm(sh) && i < |sh.states| && Step(t, Use(BeginPublish(i)), sh, Outside, sh1, pc1)
    ensures Reaches(t, sh1, pc1, sh2, Outside)
    ensures sh.closed ==> sh2 == sh
    ensures !sh.closed ==>
              HandsOver(t, sh.(states := sh.states[i := Borrowed], reserved := sh.reserved - 1, usable := sh.usable + 1,
                               filled := sh.filled - multiset{i}), i, k, sh2)
  {
    hide Reaches, Expired, QueueOk;
    CalmIsListed(sh);
    k, sh2 := 0, sh;
    if sh.closed {
      Arrived(t, sh, Outside);
    } else {
      k, sh2 := HandoffAlone(t, sh1, i, ThenReturn);
      SameHandover(t, sh1, sh1.(owner := -1), i, k, sh2);
    }
  }

  // ------------------------------------------------------------------ taking an idle slot

  /** try_take_idle alone: it takes the lowest idle slot of an open pool that nobody waits for. */
  lemma TakeAlone(t: nat, sh: Shared) returns (sh2: Shared)
    requires Calm(sh)
    ensures Reaches(t, sh, Taking(TakeClosed), sh2, Outside)
    ensures sh.closed || sh.queue != [] || sh.bits == {} ==> sh2 == sh
    ensures !sh.closed && sh.queue == [] && sh.bits != {} ==>
              var i := Lowest(sh.bits);
              && i < |sh.states|
              && sh2 == sh.(states := sh.states[i := Reserved], bits := sh.bits - {i}, usable := sh.usable - 1,
                            reserved := sh.reserved + 1, filled := sh.filled + multiset{i})
  {
    hide Reaches, Lowest, QueueOk;
    var pc, gate, scan := Taking(TakeClosed), Taking(TakeGate), Claiming(Scan(0, ForTake));
    sh2 := sh;
    if sh.closed {
      OneStep(t, sh, pc, sh2, Outside);
    } else {
      if sh.gate != 0 {
        OneStep(t, sh, gate, sh2, Outside);
      } else {
        FindAlone(t, sh, ForTake);
        if sh.bits != {} {
          var u, i := Claimed(sh), Lowest(sh.bits);
          sh2 := SetState(u, i, Reserved).(usable := sh.usable - 1, reserved := sh.reserved + 1,
                                           filled := sh.filled + multiset{i});
          assert sh2.states == sh.states[i := Reserved];
          OneStep(t, u, Taking(TakeLock(i)), sh2, Outside);
          Onward(t, sh, scan, u, Taking(TakeLock(i)), sh2, Outside);
        }
        StepThen(t, sh, gate, sh, scan, sh2, Outside);
      }
      StepThen(t, sh, pc, sh, gate, sh2, Outside);
    }
  }

  /** quarantine alone: whether the pool is open or not, the slot is set aside. */
  lemma QuarantineAlone(t: nat, sh: Shared, i: nat, sh1: Shared, pc1: Pc) returns (sh2: Shared)
    requires Calm(sh) && i < |sh.states| && Step(t, Start(BeginQuarantine(i)), sh, Outside, sh1, pc1)
    ensures Reaches(t, sh1, pc1, sh2, Outside)
    ensures sh2 == sh.(borrowed := sh.borrowed - multiset{i}, states := sh.states[i := Quarantined],
                       usable := sh.usable - 1, quarantined := sh.quarantined + [i])
  {
    hide Reaches, QueueOk;
    sh2 := Quarantine(sh1, i);
    OneStep(t, sh1, pc1, sh2, Outside);
  }

  // ------------------------------------------------------------------ waking, cancelling, timing out

  /** A woken thread alone: it returns what was decided for it, gives up if its deadline has passed, or goes
      back to sleep. */
  lemma WakeAlone(t: nat, sh: Shared, n: nat) returns (sh2: Shared, pc2: Pc)
    requires Calm(sh) && SleepOk(sh, t, Asleep(n)) && !sh.nodes[n].pinned
    ensures Reaches(t, sh, Sleeping(Asleep(n)), sh2, pc2)
    ensures sh.nodes[n].state == Assigned ==>
              && pc2 == Outside && t in sh2.answers && sh2.answers[t] == Lent(sh.nodes[n].slot)
              && sh2.borrowed == sh.borrowed + multiset{sh.nodes[n].slot}
    ensures sh.nodes[n].state == Queued && Expired(sh.nodes[n].deadline, sh.now) ==>
              && pc2 == Outside && t in sh2.answers && sh2.answers[t] == TooLate
              && sh2.queue == Without(sh.queue, n) && sh2.gate == sh.gate - 1 && sh2.borrowed == sh.borrowed
    ensures sh.nodes[n].state == Queued && !Expired(sh.nodes[n].deadline, sh.now) ==>
              pc2 == Sleeping(Asleep(n)) && sh2 == sh
    ensures sh.nodes[n].state == TimedOut || sh.nodes[n].state == ShutDown ==>
              && pc2 == Outside && t in sh2.answers && sh2.borrowed == sh.borrowed
              && sh2.answers[t] == (if sh.nodes[n].state == ShutDown then Shut else TooLate)
    ensures pc2 == Outside ==> |sh2.nodes| == |sh.nodes| && sh2.nodes[n].taken && sh2.owner == -1
  {
    hide Reaches, QueueOk, Expired, Without;
    var pc := Sleeping(Awake(n));
    if sh.nodes[n].state != Queued {
      sh2, pc2 := Reply(TakeResult(sh, n), t, AnswerOf(sh.nodes[n].state, sh.nodes[n].slot)), Outside;
      OneStep(t, sh, Sleeping(Pin(n)), sh2, pc2);
      StepThen(t, sh, pc, sh, Sleeping(Pin(n)), sh2, pc2);
    } else if Expired(sh.nodes[n].deadline, sh.now) {
      var u := Unlink(sh, t, n, TimedOut);
      sh2, pc2 := SetNode(Reply(u, t, TooLate), n, u.nodes[n].(taken := true)), Outside;
      OneStep(t, sh, pc, sh2, pc2);
    } else {
      sh2, pc2 := sh, Sleeping(Asleep(n));
      OneStep(t, sh, pc, sh2, pc2);
    }
    StepThen(t, sh, Sleeping(Asleep(n)), sh, pc, sh2, pc2);
  }

  /** A cancellation or a timer alone: it decides a waiter that is still undecided, and no other. */
  lemma SelectAlone(t: nat, sh: Shared, n: nat, st: WaiterState) returns (sh2: Shared)
    requires Calm(sh) && n < |sh.nodes|
    ensures Reaches(t, sh, Settling(SelectLock(n, st)), sh2, Outside)
    ensures sh.nodes[n].state != Queued ==> sh2 == sh
    ensures sh.nodes[n].state == Queued && sh.nodes[n].linked ==> sh2 == Tell(t, sh, n, st)
    ensures sh.nodes[n].state == Queued && !sh.nodes[n].linked ==>
              sh2 == sh.(nodes := sh.nodes[n := sh.nodes[n].(state := st)])
  {
    hide Reaches, QueueOk, Without;
    var pc, v := Settling(SelectLock(n, st)), sh.(owner := t);
    if sh.nodes[n].state != Queued {
      sh2 := sh;
      OneStep(t, sh, pc, sh2, Outside);
    } else if !sh.nodes[n].linked {
      sh2 := SetNode(sh, n, sh.nodes[n].(state := st));
      OneStep(t, sh, pc, sh2, Outside);
    } else {
      sh2 := Tell(t, sh, n, st);
      TellAlone(t, v, n, st, AfterSelect);
      StepThen(t, sh, pc, v, Completing(Complete(n, st, AfterSelect)), sh2, Outside);
    }
  }

  // ------------------------------------------------------------------ shutdown

  /** What becomes of waiter `n` when the pool shuts down. */
  ghost function Dismissed(t: nat, sh: Shared, n: nat): Node
    requires n < |sh.nodes|
  {
    if n !in sh.queue then sh.nodes[n]
    else Told(sh.nodes[n], t, if Expired(sh.nodes[n].deadline, sh.now) then TimedOut else ShutDown, sh.stopping)
  }

  ghost predicate Drains(t: nat, sh: Shared, sh2: Shared) {
    && |sh2.nodes| == |sh.nodes| && (forall n :: 0 <= n < |sh.nodes| ==> sh2.nodes[n] == Dismissed(t, sh, n))
    && sh2 == sh.(nodes := sh2.nodes, queue := [], gate := sh.gate - |sh.queue|, owner := -1)
  }

  lemma DrainHead(t: nat, sh: Shared, sh1: Shared, sh2: Shared)
    requires Listed(sh) && sh.queue != [] && Drains(t, sh1.(owner := t), sh2)
    requires var n := sh.queue[0];
             sh1 == Tell(t, sh, n, if Expired(sh.nodes[n].deadline, sh.now) then TimedOut else ShutDown)
    ensures Drains(t, sh, sh2)
  {
    var q, v := sh.queue, sh1.(owner := t);
    HeadOut(q);
    hide Without, Expired;
    assert q == [q[0]] + q[1..];
    forall n | 0 <= n < |sh.nodes| ensures sh2.nodes[n] == Dismissed(t, sh, n) {
      assert sh2.nodes[n] == Dismissed(t, v, n);
    }
  }

  lemma {:induction false} DrainAlone(t: nat, sh: Shared) returns (sh2: Shared)
    requires Listed(sh) && Free(sh) && sh.owner == t
    ensures Reaches(t, sh, Sweeping(Drain), sh2, Outside) && Drains(t, sh, sh2)
    decreases |sh.queue|
  {
    hide Reaches, Expired, Without;
    var pc := Sweeping(Drain);
    if sh.queue == [] {
      sh2 := sh.(owner := -1);
      OneStep(t, sh, pc, sh2, Outside);
    } else {
      var n := sh.queue[0];
      var st := if Expired(sh.nodes[n].deadline, sh.now) then TimedOut else ShutDown;
      var sh1, tell := Tell(t, sh, n, st), Completing(Complete(n, st, AfterDrain));
      HeadTold(t, sh, st);
      sh2 := DrainAlone(t, sh1.(owner := t));
      DrainHead(t, sh, sh1, sh2);
      StepThen(t, sh1, Sweeping(DrainLock), sh1.(owner := t), pc, sh2, Outside);
      TellAlone(t, sh, n, st, AfterDrain);
      Onward(t, sh, tell, sh1, Sweeping(DrainLock), sh2, Outside);
      StepThen(t, sh, pc, sh, tell, sh2, Outside);
    }
  }

  /** The slots `gone` have left the idle set for the quarantine. */
  ghost predicate Retires(sh: Shared, gone: set<nat>, sh2: Shared) {
    && |sh2.states| == |sh.states|
    && (forall i :: 0 <= i < |sh.states| ==> sh2.states[i] == if i in gone then Quarantined else sh.states[i])
    && multiset(sh2.quarantined) == multiset(sh.quarantined) + multiset(gone)
    && sh2 == sh.(states := sh2.states, quarantined := sh2.quarantined, usable := sh.usable - |gone|,
                  bits := sh.bits - gone)
  }

  lemma RetireOne(sh: Shared, left: set<nat>, sh2: Shared)
    requires left != {} && left !! sh.bits && Lowest(left) < |sh.states|
    requires Retires(Quarantine(sh, Lowest(left)), left - {Lowest(left)}, sh2)
    ensures Retires(sh, left, sh2)
  {
    hide Lowest;
    var i := Lowest(left);
    var u := Quarantine(sh, i);
    assert multiset(u.quarantined) == multiset(sh.quarantined) + multiset{i};
    assert multiset(left) == multiset(left - {i}) + multiset{i};
  }

  lemma {:induction false} SweepWordAlone(t: nat, sh: Shared, w: nat, left: set<nat>) returns (sh2: Shared)
    requires (forall i :: i in left ==> i < |sh.states|) && left !! sh.bits
    ensures Reaches(t, sh, Sweeping(SweepBits(w, left)), sh2, Sweeping(SweepBits(w, {}))) && Retires(sh, left, sh2)
    decreases |left|
  {
    hide Reaches, Lowest;
    if left == {} {
      sh2 := sh;
      Arrived(t, sh, Sweeping(SweepBits(w, {})));
    } else {
      var i := Lowest(left);
      var u, rest := Quarantine(sh, i), left - {i};
      sh2 := SweepWordAlone(t, u, w, rest);
      RetireOne(sh, left, sh2);
      StepThen(t, sh, Sweeping(SweepBits(w, left)), u, Sweeping(SweepBits(w, rest)), sh2, Sweeping(SweepBits(w, {})));
    }
  }

  lemma RetireMore(sh: Shared, a: set<nat>, sh1: Shared, b: set<nat>, sh2: Shared)
    requires Retires(sh, a, sh1) && Retires(sh1, b, sh2) && a !! b
    ensures Retires(sh, a + b, sh2)
  {
    assert multiset(a + b) == multiset(a) + multiset(b);
    assert |a + b| == |a| + |b|;
    assert sh2.bits == sh.bits - (a + b);
  }

  lemma RetireWord(sh: Shared, now: set<nat>, sh1: Shared)
    requires now <= sh.bits && Retires(sh.(bits := sh.bits - now), now, sh1)
    ensures Retires(sh, now, sh1)
  {
  }

  /** The sweep retires every idle slot from word `w` on. */
  lemma {:induction false} SweepAlone(t: nat, sh: Shared, w: nat) returns (sh2: Shared)
    requires w < Words(|sh.states|) && (forall i :: i in sh.bits ==> i < |sh.states| && Word(i) >= w)
    ensures Reaches(t, sh, Sweeping(SweepWord(w)), sh2, Sweeping(Drain)) && Retires(sh, sh.bits, sh2)
    decreases Words(|sh.states|) - w
  {
    hide Reaches, Retires, Lowest;
    var now := WordBits(sh.bits, w);
    var sh1 := SweepOneWord(t, sh, w);
    var done := Sweeping(SweepBits(w, {}));
    if w + 1 < Words(|sh.states|) {
      sh2 := SweepAlone(t, sh1, w + 1);
      RetireMore(sh, now, sh1, sh1.bits, sh2);
      assert now + sh1.bits == sh.bits;
      StepThen(t, sh1, done, sh1, Sweeping(SweepWord(w + 1)), sh2, Sweeping(Drain));
    } else {
      WordsFit(sh);
      assert now == sh.bits;
      sh2 := sh1;
      OneStep(t, sh1, done, sh2, Sweeping(Drain));
    }
    Onward(t, sh, Sweeping(SweepWord(w)), sh1, done, sh2, Sweeping(Drain));
  }

  lemma SweepOneWord(t: nat, sh: Shared, w: nat) returns (sh1: Shared)
    requires forall i :: i in sh.bits ==> i < |sh.states|
    ensures var now := WordBits(sh.bits, w);
            Retires(sh, now, sh1) && |sh1.states| == |sh.states| && sh1.bits == sh.bits - now
    ensures Reaches(t, sh, Sweeping(SweepWord(w)), sh1, Sweeping(SweepBits(w, {})))
  {
    hide Reaches, Retires, Lowest;
    var now := WordBits(sh.bits, w);
    var u := sh.(bits := sh.bits - now);
    sh1 := SweepWordAlone(t, u, w, now);
    assert now <= sh.bits;
    RetireWord(sh, now, sh1);
    RetireFrame(sh, now, sh1);
    StepThen(t, sh, Sweeping(SweepWord(w)), u, Sweeping(SweepBits(w, now)), sh1, Sweeping(SweepBits(w, {})));
  }

  lemma RetireFrame(sh: Shared, gone: set<nat>, sh2: Shared)
    requires Retires(sh, gone, sh2)
    ensures |sh2.states| == |sh.states| && sh2.bits == sh.bits - gone && sh2.queue == sh.queue && sh2.nodes == sh.nodes
    ensures sh2.stopping == sh.stopping && sh2.stopped == sh.stopped && sh2.owner == sh.owner && sh2.now == sh.now
    ensures sh2.closed == sh.closed
  {
  }

  /** shutdown alone: the pool is closed, every idle slot is quarantined, every waiter is told that the pool shut
      down, or that it is too late if its deadline has passed, and a second shutdown does nothing. */
  lemma ShutdownAlone(t: nat, sh: Shared, sh0: Shared, pc0: Pc) returns (sh1: Shared, sh2: Shared)
    requires Calm(sh) && Step(t, Start(BeginShutdown), sh, Outside, sh0, pc0)
    ensures Reaches(t, sh0, pc0, sh2, Outside)
    ensures sh.closed ==> sh2 == sh
    ensures !sh.closed ==> Retires(sh.(closed := true), sh.bits, sh1) && Drains(t, sh1, sh2)
    ensures !sh.closed ==> sh2.closed && sh2.bits == {} && sh2.queue == [] && sh2.gate == 0 && sh2.owner == -1
  {
    hide Reaches, Retires, QueueOk;
    CalmIsListed(sh);
    if sh.closed {
      sh1, sh2 := sh, sh;
      Arrived(t, sh, Outside);
    } else {
      sh1 := SweepAlone(t, sh0, 0);
      RetireFrame(sh0, sh0.bits, sh1);
      sh2 := DrainAlone(t, sh1);
      Onward(t, sh0, pc0, sh1, Sweeping(Drain), sh2, Outside);
      sh1 := RetireUnlocked(sh0, sh0.bits, sh1);
      DrainUnlocked(t, sh1.(owner := t), sh1, sh2);
    }
  }

  lemma RetireUnlocked(sh: Shared, gone: set<nat>, sh2: Shared) returns (u: Shared)
    requires Retires(sh, gone, sh2)
    ensures u == sh2.(owner := -1) && Retires(sh.(owner := -1), gone, u) && u.gate == sh.gate
  {
    u := sh2.(owner := -1);
  }

  lemma DrainUnlocked(t: nat, v: Shared, sh: Shared, sh2: Shared)
    requires Drains(t, v, sh2) && v == sh.(owner := v.owner)
    ensures Drains(t, sh, sh2)
  {
    hide Expired;
    forall n | 0 <= n < |sh.nodes| ensures sh2.nodes[n] == Dismissed(t, sh, n) {
      assert sh2.nodes[n] == Dismissed(t, v, n);
    }
  }

  // ------------------------------------------------------------------ stats

  ghost function Below(bits: set<nat>, w: nat): set<nat> {
    set i | i in bits && Word(i) < w
  }

  /** stats alone counts the idle slots, and changes nothing. */
  lemma {:induction false} CountAlone(t: nat, sh: Shared, w: nat)
    requires w <= Words(|sh.states|) && (forall i :: i in sh.bits ==> i < |sh.states|)
    ensures Reaches(t, sh, Counting(w, |Below(sh.bits, w)|, Below(sh.bits, w)),
                    sh, Counting(Words(|sh.states|), |sh.bits|, sh.bits))
    ensures Step(t, Go, sh, Counting(Words(|sh.states|), |sh.bits|, sh.bits), sh.(owner := -1), Outside)
    decreases Words(|sh.states|) - w
  {
    hide Reaches;
    var seen := Below(sh.bits, w);
    var last := Counting(Words(|sh.states|), |sh.bits|, sh.bits);
    if w == Words(|sh.states|) {
      WordsFit(sh);
      assert seen == sh.bits;
      Arrived(t, sh, last);
    } else {
      var more := WordBits(sh.bits, w);
      assert seen + more == Below(sh.bits, w + 1) && seen !! more;
      assert |seen + more| == |seen| + |more|;
      CountAlone(t, sh, w + 1);
      StepThen(t, sh, Counting(w, |seen|, seen), sh, Counting(w + 1, |seen + more|, seen + more), sh, last);
    }
  }

  // ------------------------------------------------------------------ shutdown of a context

  /** Waiter `n` is abandoned by the shutdown of context `c`, which has still to look at the nodes from `k` on. */
  ghost predicate Abandoned(sh: Shared, c: nat, k: nat, n: nat)
    requires n < |sh.nodes|
  {
    k <= n && n in sh.queue && sh.nodes[n].kind == Async(c) && sh.nodes[n].registered
  }

  ghost function Left(t: nat, sh: Shared, c: nat, k: nat, n: nat): Node
    requires n < |sh.nodes|
  {
    if Abandoned(sh, c, k, n) then sh.nodes[n].(state := Cancelled, selector := t) else sh.nodes[n]
  }

  /** The waiters of context `c` have left the queue, cancelled, and the others keep their order. */
  ghost predicate Abandons(t: nat, sh: Shared, c: nat, k: nat, sh2: Shared) {
    && |sh2.nodes| == |sh.nodes| && Ordered(sh2.queue, sh2.nodes)
    && (forall n :: 0 <= n < |sh.nodes| ==>
          && (n in sh2.queue <==> n in sh.queue && !Abandoned(sh, c, k, n))
          && sh2.nodes[n] == Left(t, sh, c, k, n))
    && sh2 == sh.(nodes := sh2.nodes, queue := sh2.queue, gate := sh.gate - |sh.queue| + |sh2.queue|,
                  stopped := sh.stopped + {c})
  }

  lemma AbandonOne(t: nat, sh: Shared, c: nat, k: nat)
    requires k < |sh.nodes| && k in sh.queue && Ordered(sh.queue, sh.nodes)
    ensures var u := Unlink(sh, t, k, Cancelled);
            && Ordered(u.queue, u.nodes) && |u.queue| == |sh.queue| - 1
            && forall n :: n in u.queue <==> n in sh.queue && n != k
  {
    var u := Unlink(sh, t, k, Cancelled);
    WithoutMembers(sh.queue, k);
    WithoutOrdered(sh.queue, k, sh.nodes);
    assert forall m :: 0 <= m < |sh.nodes| ==> u.nodes[m].ticket == sh.nodes[m].ticket;
  }

  lemma AbandonMore(t: nat, sh: Shared, c: nat, k: nat, sh2: Shared)
    requires k < |sh.nodes| && Ordered(sh.queue, sh.nodes)
    requires var u := if Abandoned(sh, c, k, k) then Unlink(sh, t, k, Cancelled) else sh;
             Abandons(t, u, c, k + 1, sh2)
    ensures Abandons(t, sh, c, k, sh2)
  {
    if Abandoned(sh, c, k, k) {
      AbandonOne(t, sh, c, k);
      hide Without, Ordered;
      var u := Unlink(sh, t, k, Cancelled);
      forall n | 0 <= n < |sh.nodes|
        ensures n in sh2.queue <==> n in sh.queue && !Abandoned(sh, c, k, n)
        ensures sh2.nodes[n] == Left(t, sh, c, k, n)
      {
        assert Abandoned(u, c, k + 1, n) <==> n != k && Abandoned(sh, c, k, n);
      }
    } else {
      hide Without, Ordered;
      forall n | 0 <= n < |sh.nodes|
        ensures n in sh2.queue <==> n in sh.queue && !Abandoned(sh, c, k, n)
        ensures sh2.nodes[n] == Left(t, sh, c, k, n)
      {
        assert Abandoned(sh, c, k + 1, n) <==> Abandoned(sh, c, k, n);
      }
    }
  }

  /** The prepare phase of a context's shutdown alone. */
  lemma {:induction false} PrepareAlone(t: nat, sh: Shared, c: nat, k: nat) returns (sh2: Shared)
    requires k <= |sh.nodes| && sh.owner == -1 && Ordered(sh.queue, sh.nodes)
    ensures Reaches(t, sh, Settling(PrepareAbandon(c, k)), sh2, Outside) && Abandons(t, sh, c, k, sh2)
    decreases |sh.nodes| - k
  {
    hide Reaches, Without, Ordered;
    var pc := Settling(PrepareAbandon(c, k));
    if k == |sh.nodes| {
      sh2 := sh.(stopped := sh.stopped + {c});
      OneStep(t, sh, pc, sh2, Outside);
    } else {
      var u := sh;
      if Abandoned(sh, c, k, k) {
        u := Unlink(sh, t, k, Cancelled);
        AbandonOne(t, sh, c, k);
      }
      sh2 := PrepareAlone(t, u, c, k + 1);
      AbandonMore(t, sh, c, k, sh2);
      StepThen(t, sh, pc, u, Settling(PrepareAbandon(c, k + 1)), sh2, Outside);
    }
  }

  // ------------------------------------------------------------------ reservations

  /** Slot `i` has come from the inventory `from` into a reservation, which holds an object or none. */
  ghost predicate Reserves(sh: Shared, from: SlotState, i: nat, sh2: Shared) {
    && i < |sh.states| && sh.states[i] == from
    && sh2.states == sh.states[i := Reserved] && sh2.reserved == sh.reserved + 1 && sh2.usable == sh.usable
    && sh2.filled == (if from == Quarantined then sh.filled + multiset{i} else sh.filled)
    && sh2.blank == (if from == Vacant then sh.blank + multiset{i} else sh.blank)
    && sh2.bits == sh.bits && sh2.borrowed == sh.borrowed && sh2.built == sh.built && sh2.torn == sh.torn
  }

  /** Who stands in the inventory lists: exactly the slots tagged so. */
  lemma Listing(r: seq<State>, k: nat, i: nat)
    requires Run(r) && k < |r|
    ensures i in r[k].sh.vacant <==> Is(r[k].sh, i, Vacant)
    ensures i in r[k].sh.quarantined <==> Is(r[k].sh, i, Quarantined)
  {
    Invariant(r, k);
    hide Run, HeldCount, NodeCount, SweptCount;
    assert Placed(r[k], i);
    assert i in multiset(r[k].sh.vacant) <==> i in r[k].sh.vacant;
    assert i in multiset(r[k].sh.quarantined) <==> i in r[k].sh.quarantined;
  }

  /** try_reserve and try_take_quarantined get a reservation exactly when the pool is open and some slot is
      vacant, or quarantined; otherwise they change nothing. */
  lemma ReserveExact(r: seq<State>, k: nat, t: nat, from: SlotState) returns (i: nat)
    requires Run(r) && k + 1 < |r| && t < |r[k].ths| && r[k].ths[t] == Outside
    requires from == Vacant || from == Quarantined
    requires Moves(r[k], t, Use(if from == Vacant then BeginReserve else BeginTakeQuarantined), r[k + 1])
    ensures r[k + 1].ths[t] == Outside
    ensures !r[k].sh.closed && from in r[k].sh.states ==> Reserves(r[k].sh, from, i, r[k + 1].sh)
    ensures r[k].sh.closed || from !in r[k].sh.states ==> r[k + 1].sh == r[k].sh
  {
    hide Run;
    var sh, sh2 := r[k].sh, r[k + 1].sh;
    var list := if from == Vacant then sh.vacant else sh.quarantined;
    if from in sh.states {
      var j :| 0 <= j < |sh.states| && sh.states[j] == from;
      Listing(r, k, j);
    }
    i := 0;
    if list != [] {
      i := list[|list| - 1];
      Listing(r, k, i);
    }
  }

  /** Building an object in a reservation, destroying it, and giving the reservation up: the token follows, and
      the object is destroyed if there is one. */
  lemma ReservationExact(t: nat, sh: Shared, i: nat, c: TokenAction, sh2: Shared, pc2: Pc)
    requires Step(t, Use(c), sh, Outside, sh2, pc2)
    requires c == BeginEmplace(i) || c == BeginDestroy(i) || c == BeginRollback(i)
    ensures pc2 == Outside && |sh2.built| == |sh.built| && |sh2.torn| == |sh.torn|
    ensures c == BeginEmplace(i) ==>
              i < |sh.built| && sh2.built[i] == sh.built[i] + 1 && sh2.filled[i] == sh.filled[i] + 1
              && sh2.blank[i] == sh.blank[i] - 1 && sh2.states == sh.states && sh2.torn == sh.torn
    ensures c == BeginDestroy(i) ==>
              i < |sh.torn| && sh2.torn[i] == sh.torn[i] + 1 && sh2.filled[i] == sh.filled[i] - 1
              && sh2.blank[i] == sh.blank[i] + 1 && sh2.states == sh.states && sh2.built == sh.built
    ensures c == BeginRollback(i) ==>
              && i < |sh.torn| && sh2.states == sh.states[i := Vacant] && i in sh2.vacant
              && sh2.reserved == sh.reserved - 1 && sh2.built == sh.built
              && sh2.torn[i] - sh.torn[i] == sh.filled[i] - sh2.filled[i] == One(i in sh.filled)
              && sh.filled[i] + sh.blank[i] == sh2.filled[i] + sh2.blank[i] + 1
  {
  }
}
