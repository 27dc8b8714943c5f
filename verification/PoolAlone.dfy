/**
 What each operation of the pool does when no other thread moves before it returns. The steps of
 the operation then amount to one atomic change, stated here on the slots, the tokens and the
 waiters; and that change is the only one they can amount to.
 */
module PoolAlone {
  import opened Basics
  import opened PoolModel
  import opened PoolProtocol
  import opened PoolInvariant
  import opened PoolPlaces
  import opened PoolInventory
  import opened PoolOwnership
  import opened PoolTheorems

  // ------------------------------------------------------------------ steps of one thread

  /** `n` steps of thread `t` lead there; no compare-exchange fails spuriously, no timer or post is refused. */
  ghost predicate Leads(t: nat, sh: Shared, pc: Pc, sh2: Shared, pc2: Pc, n: nat)
    decreases n
  {
    if n == 0 then sh2 == sh && pc2 == pc
    else exists sh1, pc1 :: Step(t, Go, sh, pc, sh1, pc1) && Leads(t, sh1, pc1, sh2, pc2, n - 1)
  }

  ghost predicate Reaches(t: nat, sh: Shared, pc: Pc, sh2: Shared, pc2: Pc) {
    exists n: nat :: Leads(t, sh, pc, sh2, pc2, n)
  }

  lemma Arrived(t: nat, sh: Shared, pc: Pc)
    ensures Reaches(t, sh, pc, sh, pc)
  {
    assert Leads(t, sh, pc, sh, pc, 0);
  }

  lemma StepThen(t: nat, sh: Shared, pc: Pc, sh1: Shared, pc1: Pc, sh2: Shared, pc2: Pc)
    requires Step(t, Go, sh, pc, sh1, pc1) && Reaches(t, sh1, pc1, sh2, pc2)
    ensures Reaches(t, sh, pc, sh2, pc2)
  {
    hide Step, Leads;
    var n: nat :| Leads(t, sh1, pc1, sh2, pc2, n);
    LeadsBefore(t, sh, pc, sh1, pc1, sh2, pc2, n);
  }

  lemma LeadsBefore(t: nat, sh: Shared, pc: Pc, sh1: Shared, pc1: Pc, sh2: Shared, pc2: Pc, n: nat)
    requires Step(t, Go, sh, pc, sh1, pc1) && Leads(t, sh1, pc1, sh2, pc2, n)
    ensures Leads(t, sh, pc, sh2, pc2, n + 1)
  {
    hide Step;
  }

  lemma OneStep(t: nat, sh: Shared, pc: Pc, sh2: Shared, pc2: Pc)
    requires Step(t, Go, sh, pc, sh2, pc2)
    ensures Reaches(t, sh, pc, sh2, pc2)
  {
    hide Step;
    Arrived(t, sh2, pc2);
    StepThen(t, sh, pc, sh2, pc2, sh2, pc2);
  }

  lemma {:induction false} LeadsOn(t: nat, sh: Shared, pc: Pc, sh1: Shared, pc1: Pc, sh2: Shared, pc2: Pc, n: nat)
    requires Leads(t, sh, pc, sh1, pc1, n) && Reaches(t, sh1, pc1, sh2, pc2)
    ensures Reaches(t, sh, pc, sh2, pc2)
    decreases n
  {
    hide Step, Reaches;
    if n > 0 {
      var sh0, pc0 :| Step(t, Go, sh, pc, sh0, pc0) && Leads(t, sh0, pc0, sh1, pc1, n - 1);
      LeadsOn(t, sh0, pc0, sh1, pc1, sh2, pc2, n - 1);
      StepThen(t, sh, pc, sh0, pc0, sh2, pc2);
    }
  }

  lemma Onward(t: nat, sh: Shared, pc: Pc, sh1: Shared, pc1: Pc, sh2: Shared, pc2: Pc)
    requires Reaches(t, sh, pc, sh1, pc1) && Reaches(t, sh1, pc1, sh2, pc2)
    ensures Reaches(t, sh, pc, sh2, pc2)
  {
    hide Leads;
    var n: nat :| Leads(t, sh, pc, sh1, pc1, n);
    LeadsOn(t, sh, pc, sh1, pc1, sh2, pc2, n);
  }

  // ------------------------------------------------------------------ claiming an idle slot

  /** A pool of which nobody holds the mutex or a registry: between operations. */
  ghost predicate Calm(sh: Shared) {
    && |sh.states| > 0 && sh.owner == -1 && sh.gate == |sh.queue| && QueueOk(sh)
    && (forall i :: i in sh.bits ==> i < |sh.states|)
    && (forall c :: c in sh.stopping ==> c in sh.stopped)
  }

  /** The state after the lowest idle slot is claimed. */
  ghost function Claimed(sh: Shared): Shared
    requires sh.bits != {} && Lowest(sh.bits) < |sh.states|
  {
    var i := Lowest(sh.bits);
    SetState(sh, i, Borrowed).(bits := sh.bits - {i})
  }

  ghost function MissPc(p: Purpose): Pc {
    match p
    case ForTry => Trying(TryEmpty)
    case ForFast(call) => Acquiring(MakeNode(call))
    case ForTake => Outside
    case ForStrong(n) => Registering(Push(n))
    case ForServe => Outside
  }

  ghost function MissShared(p: Purpose, sh: Shared): Shared {
    if p.ForServe? then sh.(owner := -1) else sh
  }

  lemma MissIs(p: Purpose, sh: Shared)
    ensures OnMiss(p, sh, MissShared(p, sh), MissPc(p))
  {
  }

  lemma LowestInWord(bits: set<nat>, w: nat)
    requires WordBits(bits, w) != {} && forall i :: i in bits ==> Word(i) >= w
    ensures bits != {} && Lowest(WordBits(bits, w)) == Lowest(bits)
  {
    var i := Lowest(WordBits(bits, w));
    assert i in bits;
    assert Lowest(bits) <= i && Word(Lowest(bits)) == w;
    assert Lowest(bits) in WordBits(bits, w);
  }

  /** The scan claims the lowest idle slot, or finds that there is none. */
  lemma {:induction false} ScanAlone(t: nat, sh: Shared, w: nat, why: Purpose)
    requires w < Words(|sh.states|) && (forall i :: i in sh.bits ==> i < |sh.states| && Word(i) >= w)
    ensures sh.bits != {} ==> Reaches(t, sh, Claiming(Scan(w, why)), Claimed(sh), OnFound(why, Lowest(sh.bits)))
    ensures sh.bits == {} ==> Reaches(t, sh, Claiming(Scan(w, why)), MissShared(why, sh), MissPc(why))
    decreases Words(|sh.states|) - w
  {
    hide Reaches, Lowest, OnFound, OnMiss, MissShared, MissPc;
    var pc := Claiming(Scan(w, why));
    var snap := WordBits(sh.bits, w);
    if snap != {} {
      LowestInWord(sh.bits, w);
      var cas := Claiming(Cas(w, snap, why));
      OneStep(t, sh, cas, Claimed(sh), OnFound(why, Lowest(sh.bits)));
      StepThen(t, sh, pc, sh, cas, Claimed(sh), OnFound(why, Lowest(sh.bits)));
    } else {
      forall i | i in sh.bits ensures Word(i) > w {
        assert i !in snap;
      }
      if w + 1 < Words(|sh.states|) {
        ScanAlone(t, sh, w + 1, why);
        var next := Claiming(Scan(w + 1, why));
        if sh.bits != {} {
          StepThen(t, sh, pc, sh, next, Claimed(sh), OnFound(why, Lowest(sh.bits)));
        } else {
          StepThen(t, sh, pc, sh, next, MissShared(why, sh), MissPc(why));
        }
      } else {
        WordsFit(sh);
        MissIs(why, sh);
        assert sh.bits == {};
        OneStep(t, sh, pc, MissShared(why, sh), MissPc(why));
      }
    }
  }

  lemma WordsFit(sh: Shared)
    requires forall i :: i in sh.bits ==> i < |sh.states|
    ensures forall i :: i in sh.bits ==> Word(i) < Words(|sh.states|)
  {
  }

  lemma FindAlone(t: nat, sh: Shared, why: Purpose)
    requires |sh.states| > 0 && (forall i :: i in sh.bits ==> i < |sh.states|)
    ensures sh.bits != {} ==> Reaches(t, sh, Claiming(Scan(0, why)), Claimed(sh), OnFound(why, Lowest(sh.bits)))
    ensures sh.bits == {} ==> Reaches(t, sh, Claiming(Scan(0, why)), MissShared(why, sh), MissPc(why))
  {
    hide Reaches;
    ScanAlone(t, sh, 0, why);
  }

  // ------------------------------------------------------------------ try_acquire and acquire

  /** The lowest idle slot is now borrowed by the caller, and nothing else has changed. */
  ghost predicate Lends(t: nat, sh: Shared, sh2: Shared) {
    && sh.bits != {} && Lowest(sh.bits) < |sh.states|
    && var i := Lowest(sh.bits);
       sh2 == sh.(states := sh.states[i := Borrowed], bits := sh.bits - {i}, borrowed := sh.borrowed + multiset{i},
                  answers := sh.answers[t := Lent(i)])
  }

  /** try_acquire alone: a token for the lowest idle slot if the pool is open and has one. */
  lemma TryAlone(t: nat, sh: Shared) returns (sh2: Shared)
    requires Calm(sh)
    ensures Reaches(t, sh, Trying(TryClosed), sh2, Outside)
    ensures !sh.closed && sh.bits != {} ==> Lends(t, sh, sh2)
    ensures !sh.closed && sh.bits == {} ==> sh2 == sh.(answers := sh.answers[t := Exhausted])
    ensures sh.closed ==> sh2 == sh.(answers := sh.answers[t := Shut])
  {
    hide Reaches, Lowest, QueueOk;
    var pc, scan := Trying(TryClosed), Claiming(Scan(0, ForTry));
    if sh.closed {
      sh2 := Reply(sh, t, Shut);
      OneStep(t, sh, pc, sh2, Outside);
    } else {
      FindAlone(t, sh, ForTry);
      if sh.bits == {} {
        sh2 := Reply(sh, t, Exhausted);
        OneStep(t, sh, Trying(TryEmpty), sh2, Outside);
        Onward(t, sh, scan, sh, Trying(TryEmpty), sh2, Outside);
      } else {
        var u, i := Claimed(sh), Lowest(sh.bits);
        sh2 := Reply(u, t, Lent(i)).(borrowed := sh.borrowed + multiset{i});
        OneStep(t, u, Trying(TryRecheck(i)), sh2, Outside);
        Onward(t, sh, scan, u, Trying(TryRecheck(i)), sh2, Outside);
      }
      StepThen(t, sh, pc, sh, scan, sh2, Outside);
    }
  }

  /** acquire alone, up to the decision to wait: a token for the lowest idle slot if the pool is open, the
      deadline has not passed and there is one; without one, a new waiter goes on to register. */
  lemma AcquireAlone(t: nat, sh: Shared, call: Call) returns (sh2: Shared, pc2: Pc)
    requires Calm(sh)
    ensures Reaches(t, sh, Acquiring(AcqClosed(call)), sh2, pc2)
    ensures sh.closed ==> pc2 == Outside && sh2 == sh.(answers := sh.answers[t := Shut])
    ensures !sh.closed && Expired(call.deadline, sh.now) ==>
              pc2 == Outside && sh2 == sh.(answers := sh.answers[t := TooLate])
    ensures !sh.closed && !Expired(call.deadline, sh.now) && sh.bits != {} ==> pc2 == Outside && Lends(t, sh, sh2)
    ensures !sh.closed && !Expired(call.deadline, sh.now) && sh.bits == {} ==>
              pc2 == Registering(RegLock(|sh.nodes|)) && sh2 == sh.(nodes := sh.nodes + [NewNode(call, t)])
  {
    hide Reaches, Lowest, QueueOk, Expired;
    var pc, late, scan := Acquiring(AcqClosed(call)), Acquiring(AcqExpired(call)), Claiming(Scan(0, ForFast(call)));
    pc2 := Outside;
    if sh.closed {
      sh2 := Reply(sh, t, Shut);
      OneStep(t, sh, pc, sh2, pc2);
    } else if Expired(call.deadline, sh.now) {
      sh2 := Reply(sh, t, TooLate);
      OneStep(t, sh, late, sh2, pc2);
      StepThen(t, sh, pc, sh, late, sh2, pc2);
    } else {
      FindAlone(t, sh, ForFast(call));
      if sh.bits == {} {
        sh2, pc2 := sh.(nodes := sh.nodes + [NewNode(call, t)]), Registering(RegLock(|sh.nodes|));
        OneStep(t, sh, Acquiring(MakeNode(call)), sh2, pc2);
        Onward(t, sh, scan, sh, Acquiring(MakeNode(call)), sh2, pc2);
      } else {
        var u, i := Claimed(sh), Lowest(sh.bits);
        var check, decide := Acquiring(AcqRecheck(i, call.deadline)), Acquiring(AcqLate(i, call.deadline));
        sh2 := Reply(u, t, Lent(i)).(borrowed := sh.borrowed + multiset{i});
        OneStep(t, u, decide, sh2, pc2);
        StepThen(t, u, check, u, decide, sh2, pc2);
        Onward(t, sh, scan, u, check, sh2, pc2);
      }
      StepThen(t, sh, late, sh, scan, sh2, pc2);
      StepThen(t, sh, pc, sh, late, sh2, pc2);
    }
  }

  // ------------------------------------------------------------------ registration and waiting

  /** How a call that did not queue ends: a blocked thread is answered, an asynchronous call is posted. */
  ghost function Ended(t: nat, sh: Shared, n: nat, st: WaiterState, answer: Answer): Shared
    requires n < |sh.nodes|
  {
    var node := sh.nodes[n];
    if node.kind.Sync?
    then sh.(nodes := sh.nodes[n := node.(taken := true)], answers := sh.answers[t := answer])
    else sh.(nodes := sh.nodes[n := node.(state := st, posted := true)])
  }

  /** A registering call finds an idle slot after all: the lowest one is borrowed, or assigned to the call. */
  ghost predicate LendsTo(t: nat, sh: Shared, n: nat, sh2: Shared) {
    && n < |sh.nodes| && sh.bits != {} && Lowest(sh.bits) < |sh.states|
    && var i, node := Lowest(sh.bits), sh.nodes[n];
       var u := sh.(states := sh.states[i := Borrowed], bits := sh.bits - {i});
       if node.kind.Sync?
       then sh2 == u.(nodes := sh.nodes[n := node.(taken := true)], borrowed := sh.borrowed + multiset{i},
                      answers := sh.answers[t := Lent(i)])
       else sh2 == u.(nodes := sh.nodes[n := node.(state := Assigned, slot := i, posted := true)])
  }

  /** The waiter stands last in the queue. */
  ghost function Enqueued(sh: Shared, n: nat): Shared
    requires n < |sh.nodes|
  {
    sh.(nodes := sh.nodes[n := sh.nodes[n].(linked := true, ticket := sh.tickets)], queue := sh.queue + [n],
        tickets := sh.tickets + 1, gate := sh.gate + 1)
  }

  /** An asynchronous call that has its outcome is posted. */
  lemma SubmitAlone(t: nat, sh: Shared, n: nat)
    requires n < |sh.nodes| && sh.nodes[n].kind.Async? && sh.nodes[n].kind.context !in sh.stopping
    ensures Reaches(t, sh, Settling(SubmitInit(n)), sh.(nodes := sh.nodes[n := sh.nodes[n].(posted := true)]), Outside)
  {
    hide Reaches;
    OneStep(t, sh, Settling(SubmitInit(n)), SetNode(sh, n, sh.nodes[n].(posted := true)), Outside);
  }

  /** The strong path alone: the mutex held and the gate raised, the call takes the lowest idle slot, or queues. */
  lemma StrongAlone(t: nat, sh: Shared, n: nat) returns (sh2: Shared, pc2: Pc)
    requires Calm(sh) && Deciding(sh, t, n) && !sh.closed && !Expired(sh.nodes[n].deadline, sh.now)
    requires sh.nodes[n].kind.Async? ==> sh.nodes[n].kind.context !in sh.stopping
    ensures Reaches(t, sh.(owner := t), Registering(RegGate(n)), sh2, pc2)
    ensures sh.bits != {} ==> pc2 == Outside && LendsTo(t, sh, n, sh2)
    ensures sh.bits == {} ==> sh2 == Enqueued(sh, n)
    ensures sh.bits == {} ==> pc2 == if sh.nodes[n].kind.Sync? then Sleeping(Asleep(n)) else Outside
  {
    hide Reaches, Lowest, QueueOk, Expired;
    var v := sh.(owner := t, gate := sh.gate + 1);
    var scan := Claiming(Scan(0, ForStrong(n)));
    FindAlone(t, v, ForStrong(n));
    if sh.bits == {} {
      var push := Registering(Push(n));
      sh2 := Enqueued(sh, n);
      if sh.nodes[n].kind.Sync? {
        pc2 := Sleeping(Asleep(n));
        OneStep(t, v, push, sh2, pc2);
      } else {
        pc2 := Outside;
        OneStep(t, sh2.(owner := t), Registering(ArmTimer(n)), sh2, pc2);
        StepThen(t, v, push, sh2.(owner := t), Registering(ArmTimer(n)), sh2, pc2);
      }
      Onward(t, v, scan, v, push, sh2, pc2);
    } else {
      var i := Lowest(sh.bits);
      var u := Claimed(v);
      sh2 := TakenStrong(t, sh, n);
      pc2 := Outside;
      StepThen(t, u, Registering(Ungate(i, n)), u.(gate := sh.gate), Registering(StrongLate(i, n)), sh2, pc2);
      Onward(t, v, scan, u, Registering(Ungate(i, n)), sh2, pc2);
    }
    StepThen(t, sh.(owner := t), Registering(RegGate(n)), v, scan, sh2, pc2);
  }

  lemma TakenStrong(t: nat, sh: Shared, n: nat) returns (sh2: Shared)
    requires Calm(sh) && Deciding(sh, t, n) && !Expired(sh.nodes[n].deadline, sh.now) && sh.bits != {}
    requires sh.nodes[n].kind.Async? ==> sh.nodes[n].kind.context !in sh.stopping
    ensures LendsTo(t, sh, n, sh2)
    ensures Reaches(t, Claimed(sh).(owner := t), Registering(StrongLate(Lowest(sh.bits), n)), sh2, Outside)
  {
    hide Reaches, Lowest, QueueOk, Expired;
    var i, node := Lowest(sh.bits), sh.nodes[n];
    var u, pc := Claimed(sh).(owner := t), Registering(StrongLate(i, n));
    if node.kind.Sync? {
      sh2 := SetNode(Reply(u, t, Lent(i)), n, node.(taken := true))
             .(borrowed := sh.borrowed + multiset{i}, owner := -1);
      OneStep(t, u, pc, sh2, Outside);
    } else {
      var v := SetNode(u, n, node.(state := Assigned, slot := i)).(owner := -1);
      sh2 := v.(nodes := v.nodes[n := v.nodes[n].(posted := true)]);
      SubmitAlone(t, v, n);
      StepThen(t, u, pc, v, Settling(SubmitInit(n)), sh2, Outside);
    }
  }

  /** Registration alone, from the locking of the mutex on. */
  lemma RegisterAlone(t: nat, sh: Shared, n: nat) returns (sh2: Shared, pc2: Pc)
    requires Calm(sh) && Deciding(sh, t, n)
    requires sh.nodes[n].kind.Async? ==> sh.nodes[n].kind.context !in sh.stopping
    ensures Reaches(t, sh, Registering(RegLock(n)), sh2, pc2)
    ensures sh.closed ==> pc2 == Outside && sh2 == Ended(t, sh, n, ShutDown, Shut)
    ensures !sh.closed && Expired(sh.nodes[n].deadline, sh.now) ==>
              pc2 == Outside && sh2 == Ended(t, sh, n, TimedOut, TooLate)
    ensures !sh.closed && !Expired(sh.nodes[n].deadline, sh.now) && sh.bits != {} ==>
              pc2 == Outside && LendsTo(t, sh, n, sh2)
    ensures !sh.closed && !Expired(sh.nodes[n].deadline, sh.now) && sh.bits == {} ==>
              sh2 == Enqueued(sh, n) && pc2 == if sh.nodes[n].kind.Sync? then Sleeping(Asleep(n)) else Outside
  {
    hide Reaches, Lowest, QueueOk, Expired, LendsTo;
    var pc, late := Registering(RegLock(n)), Registering(RegExpired(n));
    var v := sh.(owner := t);
    if sh.closed {
      sh2, pc2 := EndAlone(t, sh, sh, pc, n, ShutDown, Shut);
    } else {
      if Expired(sh.nodes[n].deadline, sh.now) {
        sh2, pc2 := EndAlone(t, sh, v, late, n, TimedOut, TooLate);
      } else {
        sh2, pc2 := StrongAlone(t, sh, n);
        StepThen(t, v, late, v, Registering(RegGate(n)), sh2, pc2);
      }
      StepThen(t, sh, pc, v, late, sh2, pc2);
    }
  }

  /** A step that settles the call ends it. */
  lemma EndAlone(t: nat, sh: Shared, v: Shared, pc: Pc, n: nat, st: WaiterState, answer: Answer)
    returns (sh2: Shared, pc2: Pc)
    requires n < |sh.nodes| && v == sh.(owner := v.owner) && sh.owner == -1 && answer == AnswerOf(st, 0)
    requires sh.nodes[n].kind.Async? ==> sh.nodes[n].kind.context !in sh.stopping
    requires forall u, pcu :: Settle(t, v, n, st, u, pcu) ==> Step(t, Go, v, pc, u, pcu)
    ensures pc2 == Outside && sh2 == Ended(t, sh, n, st, answer) && Reaches(t, v, pc, sh2, pc2)
  {
    hide Reaches, Step;
    pc2 := Outside;
    sh2 := Ended(t, sh, n, st, answer);
    if sh.nodes[n].kind.Sync? {
      OneStep(t, v, pc, sh2, Outside);
    } else {
      var u := SetNode(v, n, v.nodes[n].(state := st)).(owner := -1);
      SubmitAlone(t, u, n);
      assert u.nodes[n := u.nodes[n].(posted := true)] == sh2.nodes;
      StepThen(t, v, pc, u, Settling(SubmitInit(n)), sh2, Outside);
    }
  }

  // ------------------------------------------------------------------ the outcome is the only one

  lemma TryOnce(t: nat, sh: Shared, c: TryPc, a: Shared, p: Pc, b: Shared, q: Pc)
    requires TryStep(t, Go, sh, c, a, p) && TryStep(t, Go, sh, c, b, q)
    ensures a == b && p == q
  {
  }

  lemma TakeOnce(t: nat, sh: Shared, c: TakePc, a: Shared, p: Pc, b: Shared, q: Pc)
    requires TakeStep(t, Go, sh, c, a, p) && TakeStep(t, Go, sh, c, b, q)
    ensures a == b && p == q
  {
  }

  lemma AcquireOnce(t: nat, sh: Shared, c: AcqPc, a: Shared, p: Pc, b: Shared, q: Pc)
    requires AcquireStep(t, Go, sh, c, a, p) && AcquireStep(t, Go, sh, c, b, q)
    ensures a == b && p == q
  {
    hide Expired;
  }

  lemma ObserveOnce(w: nat, seen: set<nat>, why: Purpose, sh: Shared, a: Shared, p: Pc, b: Shared, q: Pc)
    requires Observe(w, seen, why, sh, a, p) && Observe(w, seen, why, sh, b, q)
    ensures a == b && p == q
  {
    hide OnMiss, Words;
    if seen == {} && w + 1 >= Words(|sh.states|) {
      MissOnce(why, sh, a, p, b, q);
    }
  }

  lemma MissOnce(why: Purpose, sh: Shared, a: Shared, p: Pc, b: Shared, q: Pc)
    requires OnMiss(why, sh, a, p) && OnMiss(why, sh, b, q)
    ensures a == b && p == q
  {
  }

  lemma ClaimOnce(t: nat, sh: Shared, c: ClaimPc, a: Shared, p: Pc, b: Shared, q: Pc)
    requires ClaimStep(t, Go, sh, c, a, p) && ClaimStep(t, Go, sh, c, b, q)
    ensures a == b && p == q
  {
    hide Observe, OnFound, Lowest;
    var seen := WordBits(sh.bits, c.word);
    if c.Scan? || c.snap == {} || seen != c.snap {
      ObserveOnce(c.word, seen, c.purpose, sh, a, p, b, q);
    }
  }

  lemma EndOnce(t: nat, sh: Shared, n: nat, st: WaiterState, a: Shared, p: Pc, b: Shared, q: Pc)
    requires Settle(t, sh, n, st, a, p) && Settle(t, sh, n, st, b, q)
    ensures a == b && p == q
  {
  }

  lemma StrongOnce(t: nat, sh: Shared, i: nat, n: nat, a: Shared, p: Pc, b: Shared, q: Pc)
    requires n < |sh.nodes| && StrongClaim(t, sh, i, n, a, p) && StrongClaim(t, sh, i, n, b, q)
    ensures a == b && p == q
  {
  }

  lemma RegisterOnce(t: nat, sh: Shared, c: RegPc, a: Shared, p: Pc, b: Shared, q: Pc)
    requires RegisterStep(t, Go, sh, c, a, p) && RegisterStep(t, Go, sh, c, b, q)
    ensures a == b && p == q
  {
    hide Without, Settle, StrongClaim;
    if c.RegLock? && sh.nodes[c.node].state != Cancelled && sh.closed {
      EndOnce(t, sh, c.node, ShutDown, a, p, b, q);
    } else if c.RegExpired? && Expired(sh.nodes[c.node].deadline, sh.now) {
      EndOnce(t, sh, c.node, TimedOut, a, p, b, q);
    } else if c.StrongLate? {
      StrongOnce(t, sh, c.index, c.node, a, p, b, q);
    }
  }

  lemma SleepOnce(t: nat, sh: Shared, c: SleepPc, a: Shared, p: Pc, b: Shared, q: Pc)
    requires SleepStep(t, Go, sh, c, a, p) && SleepStep(t, Go, sh, c, b, q)
    ensures a == b && p == q
  {
    hide Without;
  }

  lemma ReleaseOnce(t: nat, sh: Shared, c: RelPc, a: Shared, p: Pc, b: Shared, q: Pc)
    requires ReleaseStep(t, Go, sh, c, a, p) && ReleaseStep(t, Go, sh, c, b, q)
    ensures a == b && p == q
  {
  }

  lemma ReclaimOnce(t: nat, sh: Shared, c: RecPc, a: Shared, p: Pc, b: Shared, q: Pc)
    requires ReclaimStep(t, Go, sh, c, a, p) && ReclaimStep(t, Go, sh, c, b, q)
    ensures a == b && p == q
  {
    hide WordBits;
  }

  lemma SweepOnce(t: nat, sh: Shared, c: SweepPc, a: Shared, p: Pc, b: Shared, q: Pc)
    requires SweepStep(t, Go, sh, c, a, p) && SweepStep(t, Go, sh, c, b, q)
    ensures a == b && p == q
  {
    hide WordBits, Lowest, Words, Expired;
  }

  lemma KeepOnce(h: Sequel, sh: Shared, a: Shared, p: Pc, b: Shared, q: Pc)
    requires KeepHandoff(h, sh, a, p) && KeepHandoff(h, sh, b, q)
    ensures a == b && p == q
  {
  }

  lemma HandoffOnce(t: nat, sh: Shared, c: HandPc, a: Shared, p: Pc, b: Shared, q: Pc)
    requires HandoffStep(t, Go, sh, c, a, p) && HandoffStep(t, Go, sh, c, b, q)
    ensures a == b && p == q
  {
    hide KeepHandoff, Quarantine, PublishBit, Expired;
    if c.Handoff? && sh.closed {
      KeepOnce(c.sequel, Quarantine(sh, c.index), a, p, b, q);
    } else if c.Handoff? && sh.queue == [] {
      KeepOnce(c.sequel, PublishBit(sh, c.index), a, p, b, q);
    }
  }

  lemma CompleteOnce(t: nat, sh: Shared, c: CompPc, a: Shared, p: Pc, b: Shared, q: Pc)
    requires CompleteStep(t, Go, sh, c, a, p) && CompleteStep(t, Go, sh, c, b, q)
    ensures a == b && p == q
  {
    hide CompleteNode, Resume;
    match c
    case Give(n, i, h) =>
      SelectOnce(t, SetNode(sh, n, sh.nodes[n].(slot := i)), n, Assigned, AfterGive(h), a, p, b, q);
    case Complete(n, st, after) => SelectOnce(t, sh, n, st, after, a, p, b, q);
    case _ =>
  }

  lemma SelectOnce(t: nat, sh: Shared, n: nat, st: WaiterState, after: After, a: Shared, p: Pc, b: Shared, q: Pc)
    requires CompleteNode(t, sh, n, st, after, a, p) && CompleteNode(t, sh, n, st, after, b, q)
    ensures a == b && p == q
  {
    hide Unlink;
  }

  lemma SettleOnce(t: nat, sh: Shared, c: SettlePc, a: Shared, p: Pc, b: Shared, q: Pc)
    requires SettleStep(t, Go, sh, c, a, p) && SettleStep(t, Go, sh, c, b, q)
    ensures a == b && p == q
  {
    hide Without;
  }

  lemma StepOnce(t: nat, sh: Shared, pc: Pc, a: Shared, p: Pc, b: Shared, q: Pc)
    requires Step(t, Go, sh, pc, a, p) && Step(t, Go, sh, pc, b, q)
    ensures a == b && p == q && pc != Outside
  {
    hide TryStep, AcquireStep, ClaimStep, RegisterStep, SleepStep, ReleaseStep, ReclaimStep, TakeStep, HandoffStep,
         CompleteStep, SweepStep, SettleStep, Words, WordBits;
    match pc
    case Trying(c) => TryOnce(t, sh, c, a, p, b, q);
    case Acquiring(c) => AcquireOnce(t, sh, c, a, p, b, q);
    case Taking(c) => TakeOnce(t, sh, c, a, p, b, q);
    case Counting(_, _, _) =>
    case Claiming(c) => ClaimOnce(t, sh, c, a, p, b, q);
    case Registering(c) => RegisterOnce(t, sh, c, a, p, b, q);
    case Sleeping(c) => SleepOnce(t, sh, c, a, p, b, q);
    case Releasing(c) => ReleaseOnce(t, sh, c, a, p, b, q);
    case Reclaiming(c) => ReclaimOnce(t, sh, c, a, p, b, q);
    case Sweeping(c) => SweepOnce(t, sh, c, a, p, b, q);
    case Handing(c) => HandoffOnce(t, sh, c, a, p, b, q);
    case Completing(c) => CompleteOnce(t, sh, c, a, p, b, q);
    case Settling(c) => SettleOnce(t, sh, c, a, p, b, q);
  }

  lemma {:induction false} LeadsOnce(t: nat, sh: Shared, pc: Pc, a: Shared, m: nat, b: Shared, n: nat)
    requires Leads(t, sh, pc, a, Outside, m) && Leads(t, sh, pc, b, Outside, n)
    ensures a == b && m == n
    decreases m
  {
    hide Step;
    if m == 0 && n > 0 {
      NothingFollows(t, sh, b, Outside, n);
    } else if m > 0 && n == 0 {
      NothingFollows(t, sh, a, Outside, m);
    } else if m > 0 {
      var sh1, pc1 :| Step(t, Go, sh, pc, sh1, pc1) && Leads(t, sh1, pc1, a, Outside, m - 1);
      var sh2, pc2 :| Step(t, Go, sh, pc, sh2, pc2) && Leads(t, sh2, pc2, b, Outside, n - 1);
      StepOnce(t, sh, pc, sh1, pc1, sh2, pc2);
      LeadsOnce(t, sh1, pc1, a, m - 1, b, n - 1);
    }
  }

  lemma NothingFollows(t: nat, sh: Shared, sh2: Shared, pc2: Pc, n: nat)
    requires n > 0
    ensures !Leads(t, sh, Outside, sh2, pc2, n)
  {
  }

  /** A thread that moves alone has one way to return, so what is shown here of one is true of all. */
  lemma ReturnsOnce(t: nat, sh: Shared, pc: Pc, a: Shared, b: Shared)
    requires Reaches(t, sh, pc, a, Outside) && Reaches(t, sh, pc, b, Outside)
    ensures a == b
  {
    hide Leads;
    var m: nat :| Leads(t, sh, pc, a, Outside, m);
    var n: nat :| Leads(t, sh, pc, b, Outside, n);
    LeadsOnce(t, sh, pc, a, m, b, n);
  }

  /** A compare-exchange that fails spuriously is tried again with the same expectation: while nobody else moves,
      the failure changes nothing. */
  lemma SpuriousRetries(t: nat, sh: Shared, pc: Pc, sh2: Shared, pc2: Pc)
    requires || (pc.Claiming? && pc.atClaim.Cas? && pc.atClaim.snap == WordBits(sh.bits, pc.atClaim.word) != {})
             || (pc.Reclaiming? && pc.atRec.ReclaimCas? && pc.atRec.index in sh.bits
                 && pc.atRec.snap == WordBits(sh.bits, Word(pc.atRec.index)))
    requires Step(t, Fail, sh, pc, sh2, pc2)
    ensures sh2 == sh && pc2 == pc
  {
    hide Lowest;
  }

  // ------------------------------------------------------------------ runs

  /** Steps taken alone are steps of a run: every state of one whose mutex and registries are free is calm. */
  lemma CalmInRun(r: seq<State>, k: nat)
    requires Run(r) && k < |r| && r[k].sh.owner == -1 && r[k].sh.stopping <= r[k].sh.stopped
    ensures Calm(r[k].sh)
  {
    Invariant(r, k);
    hide Run;
    assert Protocol(r[k]) && Owned(r[k]);
    hide Inv, Protocol, Inventory, QueueOk;
    forall i | i in r[k].sh.bits ensures i < |r[k].sh.states| {
      assert Placed(r[k], i);
    }
  }

  /** The steps thread `t` takes alone, as steps of the whole pool. */
  ghost predicate Alone(r: seq<State>, t: nat) {
    r != [] && forall k :: 0 <= k < |r| - 1 ==> Moves(r[k], t, Go, r[k + 1])
  }

  lemma RegisterStops(t: nat, sh: Shared, p: RegPc, sh2: Shared, pc2: Pc)
    requires RegisterStep(t, Go, sh, p, sh2, pc2)
    ensures sh2.stopping == sh.stopping
  {
    hide Without, Expired;
  }

  lemma CompleteStops(t: nat, sh: Shared, p: CompPc, sh2: Shared, pc2: Pc)
    requires CompleteStep(t, Go, sh, p, sh2, pc2)
    ensures sh2.stopping == sh.stopping
  {
    hide Without, Resume;
  }

  lemma SettleStops(t: nat, sh: Shared, p: SettlePc, sh2: Shared, pc2: Pc)
    requires SettleStep(t, Go, sh, p, sh2, pc2)
    ensures sh2.stopping == sh.stopping
  {
    hide Without;
  }

  /** Only the start of a context's shutdown stops it. */
  lemma GoStops(t: nat, sh: Shared, pc: Pc, sh2: Shared, pc2: Pc)
    requires Step(t, Go, sh, pc, sh2, pc2)
    ensures sh2.stopping == sh.stopping
  {
    hide RegisterStep, CompleteStep, SettleStep, WordBits, Lowest, Words, Expired, Without;
    if pc.Registering? {
      RegisterStops(t, sh, pc.atReg, sh2, pc2);
    } else if pc.Completing? {
      CompleteStops(t, sh, pc.atComp, sh2, pc2);
    } else if pc.Settling? {
      SettleStops(t, sh, pc.atSettle, sh2, pc2);
    }
  }

  lemma {:induction false} AloneRun(s: State, t: nat, sh2: Shared, pc2: Pc, n: nat) returns (r: seq<State>)
    requires t < |s.ths| && Leads(t, s.sh, s.ths[t], sh2, pc2, n)
    ensures Alone(r, t) && r[0] == s && r[|r| - 1] == State(sh2, s.ths[t := pc2])
    decreases n
  {
    hide Step;
    if n == 0 {
      r := [s];
      assert s.ths == s.ths[t := pc2];
    } else {
      var sh1, pc1 :| Step(t, Go, s.sh, s.ths[t], sh1, pc1) && Leads(t, sh1, pc1, sh2, pc2, n - 1);
      var s1 := State(sh1, s.ths[t := pc1]);
      GoStops(t, s.sh, s.ths[t], sh1, pc1);
      assert Moves(s, t, Go, s1);
      var rest := AloneRun(s1, t, sh2, pc2, n - 1);
      r := [s] + rest;
      assert s1.ths[t := pc2] == s.ths[t := pc2];
      forall k | 0 <= k < |r| - 1 ensures Moves(r[k], t, Go, r[k + 1]) {
        if k > 0 {
          assert Moves(rest[k - 1], t, Go, rest[k - 1 + 1]);
        }
      }
    }
  }

  lemma StepsTaken(t: nat, sh: Shared, pc: Pc, sh2: Shared, pc2: Pc) returns (n: nat)
    requires Reaches(t, sh, pc, sh2, pc2)
    ensures Leads(t, sh, pc, sh2, pc2, n)
  {
    n :| Leads(t, sh, pc, sh2, pc2, n);
  }

  /** A state with a set bit, in an open pool: whatever got it there, a thread that calls acquire in time or
      try_acquire and moves alone returns with one token more. */
  lemma OneTokenMore(r: seq<State>, k: nat, t: nat) returns (r2: seq<State>)
    requires Run(r) && k < |r| && r[k].sh.owner == -1 && r[k].sh.stopping <= r[k].sh.stopped
    requires t < |r[k].ths| && !r[k].sh.closed && r[k].sh.bits != {} && Asking(r[k].sh, t, r[k].ths[t])
    ensures Alone(r2, t) && r2[0] == r[k]
    ensures var s, s2 := r[k], r2[|r2| - 1];
            && s2.ths == s.ths[t := Outside]
            && exists i :: i in s.sh.bits && s2.sh.borrowed == s.sh.borrowed + multiset{i} && i !in s2.sh.bits
  {
    CalmInRun(r, k);
    hide Run, Calm, Reaches, Leads, Alone, Deciding;
    var s := r[k];
    var sh2, pc2;
    match s.ths[t] {
      case Trying(_) => sh2 := TryAlone(t, s.sh); pc2 := Outside;
      case Acquiring(p) => sh2, pc2 := AcquireAlone(t, s.sh, p.call);
      case Registering(p) => sh2, pc2 := RegisterAlone(t, s.sh, p.node);
    }
    assert Lowest(s.sh.bits) in s.sh.bits;
    var n := StepsTaken(t, s.sh, s.ths[t], sh2, pc2);
    r2 := AloneRun(s, t, sh2, pc2, n);
  }

  /** At the start of try_acquire, of acquire, or of a blocking call's registration, the deadline not passed. */
  ghost predicate Asking(sh: Shared, t: nat, pc: Pc) {
    match pc
    case Trying(p) => p.TryClosed?
    case Acquiring(p) => p.AcqClosed? && !Expired(p.call.deadline, sh.now)
    case Registering(p) =>
      && p.RegLock? && Deciding(sh, t, p.node) && sh.nodes[p.node].kind.Sync?
      && !Expired(sh.nodes[p.node].deadline, sh.now)
    case _ => false
  }
}
