/**
 When a producer's wait for capacity can end. It can, in some continuation of the run, exactly
 if no thread blocks itself at or below the sequence whose consumption the wait is for. With one
 claim per thread and batches that fit the ring nobody is ever blocked.
 */
module MpWaits {
  import opened Generation
  import opened MpModel
  import opened MpInvariant
  import opened MpTheorems
  import opened MpProgress

  /** Producer `o` waits for the consumption of a sequence that comes no earlier than one with
      which some thread, its own or another, blocks itself. */
  ghost predicate Stuck<T>(s: Mp<T>, g: seq<nat>, o: nat) {
    && o < |s.producers| && s.producers[o].Waiting?
    && exists w: nat, p: nat, q: int :: Blocks(s, g, w, p, q) && q <= s.producers[o].hi - s.cap
  }

  // ------------------------------------------------------------------ stuck for good

  lemma WaitStays<T(!new)>(s: Mp<T>, g: seq<nat>, o: nat, s2: Mp<T>)
    requires ThreadMoves(s, g, s2) && o < |s.producers| && s.producers[o].Waiting?
    requires s.producers[o].hi - s.cap > s.consumed
    ensures |s2.producers| == |s.producers| && s2.producers[o] == s.producers[o] && s2.cap == s.cap
  {
    hide ConsumerStep, Slot, Gen;
    if ConsumerStep(s, s2) {
      ConsumerAlone(s, s2);
    } else {
      var p: nat, a: Choice<T> :| Allowed(s, g, p) && Produces(s, p, a, s2);
      ProducerAlone(s, p, a, s2);
    }
  }

  lemma KeepsWaiting<T>(s: Mp<T>, s2: Mp<T>, g: seq<nat>, w: nat, p: nat, q: int, o: nat)
    requires StillBlocked(s, s2, g, w, p, q) && o < |s2.producers| && s2.producers[o].Waiting?
    requires q <= s2.producers[o].hi - s2.cap
    ensures Stuck(s2, g, o) && s2.producers[o].hi - s2.cap > s2.consumed
  {
  }

  lemma {:induction false} WaitsOn<T(!new)>(r: seq<Mp<T>>, g: seq<nat>, j: nat, k: nat, o: nat, w: nat, p: nat, q: int)
    requires ThreadRun(r, g) && j <= k < |r| && Blocks(r[j], g, w, p, q)
    requires o < |r[j].producers| && r[j].producers[o].Waiting? && q <= r[j].producers[o].hi - r[j].cap
    ensures o < |r[k].producers| && r[k].producers[o] == r[j].producers[o] && r[k].cap == r[j].cap
    ensures Stuck(r[k], g, o) && r[k].producers[o].hi - r[k].cap > r[k].consumed
    decreases k - j
  {
    hide *;
    BlockedForever(r, g, j, k, w, p, q);
    if j < k {
      WaitsOn(r, g, j, k - 1, o, w, p, q);
      RunStep(r, g, k - 1);
      WaitStays(r[k - 1], g, o, r[k]);
    }
    KeepsWaiting(r[j], r[k], g, w, p, q, o);
  }

  /** A stuck producer, of whatever thread, is in the same wait in every later state. */
  lemma StuckForever<T(!new)>(r: seq<Mp<T>>, g: seq<nat>, j: nat, k: nat, o: nat)
    requires ThreadRun(r, g) && j <= k < |r| && Stuck(r[j], g, o)
    ensures Stuck(r[k], g, o) && r[k].producers[o] == r[j].producers[o]
    ensures r[k].producers[o].hi - r[k].cap > r[k].consumed
  {
    var w: nat, p: nat, q: int :| Blocks(r[j], g, w, p, q) && q <= r[j].producers[o].hi - r[j].cap;
    hide ThreadRun, Blocks;
    WaitsOn(r, g, j, k, o, w, p, q);
  }

  // ------------------------------------------------------------------ work left

  function Length(lo: int, hi: int): nat {
    if lo <= hi then hi - lo + 1 else 0
  }

  /** Steps a producer has left until it rests, if it begins nothing new. */
  function Work(pc: Producer): nat {
    match pc
    case Resting => 0
    case Waiting(lo, hi) => 2 * Length(lo, hi) + 4
    case Filling(lo, hi, at) => Length(lo, hi) + Length(at, hi) + 3
    case Publishing(_, hi, at) => Length(at, hi) + 2
    case Signalling(_, _) => 1
    case Checking(_) => 2
    case Exchanging(_) => 1
  }

  function TotalWork(ps: seq<Producer>): nat {
    if ps == [] then 0 else TotalWork(ps[..|ps| - 1]) + Work(ps[|ps| - 1])
  }

  lemma {:induction false} TotalWorkSet(ps: seq<Producer>, p: nat, pc: Producer)
    requires p < |ps|
    ensures TotalWork(ps[p := pc]) + Work(ps[p]) == TotalWork(ps) + Work(pc)
  {
    hide Work;
    var k := |ps| - 1;
    if p == k {
      assert ps[p := pc][..k] == ps[..k];
    } else {
      assert ps[p := pc][..k] == ps[..k][p := pc];
      TotalWorkSet(ps[..k], p, pc);
    }
  }

  /** A bound on the steps of the consumer until it consumes. */
  function ConsumerWork(c: Consumer, claimed: int): nat
    requires claimed >= -1
  {
    var full := claimed + 2;
    match c
    case Reading(at, hi) => Length(at, hi) + 1
    case Scanning(at, bound) => full + 1 + Length(at, bound)
    case Glancing => 2 * full + 1
    case Holding => 2 * full + 1
    case Pulling => 2 * full + 2
    case Locking => 2 * full + 2
    case Asleep(_) => 2 * full + 3
    case Parking => 2 * full + 4
  }

  /** A step that claims nothing: producers go on without new waits or new claims. */
  ghost predicate ClaimsNothing<T>(s: Mp<T>, s2: Mp<T>) {
    && |s2.producers| == |s.producers| && s2.cap == s.cap && s2.claimed == s.claimed
    && (forall p :: 0 <= p < |s.producers| && s2.producers[p].Waiting? ==> s2.producers[p] == s.producers[p])
    && forall p, q :: 0 <= p < |s.producers| && Pending(s2.producers[p], q) ==> Pending(s.producers[p], q)
  }

  /** Consumption advances, or else the work of the producers shrinks, or else the consumer's. */
  ghost predicate Less<T>(s2: Mp<T>, s: Mp<T>)
    requires s.claimed >= -1
  {
    && s2.claimed == s.claimed
    && (|| s2.consumed > s.consumed
        || (s2.consumed == s.consumed && TotalWork(s2.producers) < TotalWork(s.producers))
        || (s2.consumed == s.consumed && TotalWork(s2.producers) == TotalWork(s.producers)
            && ConsumerWork(s2.consumer, s.claimed) < ConsumerWork(s.consumer, s.claimed)))
  }

  /** What one step of producer `p` does, if it begins nothing. */
  ghost predicate WorksOn<T>(s: Mp<T>, p: nat, s2: Mp<T>)
    requires p < |s.producers|
  {
    && |s2.producers| == |s.producers| && s2.producers == s.producers[p := s2.producers[p]]
    && s2.cap == s.cap && s2.claimed == s.claimed && s2.consumed == s.consumed
    && Work(s2.producers[p]) < Work(s.producers[p]) && !s2.producers[p].Waiting?
    && forall q :: Pending(s2.producers[p], q) ==> Pending(s.producers[p], q)
  }

  lemma WriterMoves<T>(s: Mp<T>, p: nat, s2: Mp<T>)
    requires p < |s.producers| && Ranges(s, s.producers[p]) && ProducerStep(s, p, Miss, s2)
    requires s.producers[p].Filling? || s.producers[p].Publishing?
    ensures WorksOn(s, p, s2)
  {
    hide Slot, Gen;
  }

  lemma CallerMoves<T>(s: Mp<T>, p: nat, s2: Mp<T>)
    requires p < |s.producers| && Ranges(s, s.producers[p]) && s2 != s && ProducerStep(s, p, Miss, s2)
    requires !s.producers[p].Filling? && !s.producers[p].Publishing?
    ensures WorksOn(s, p, s2)
  {
    hide Slot, Gen;
  }

  lemma ProducerMoves<T>(s: Mp<T>, p: nat, s2: Mp<T>)
    requires Inv(s) && s2 != s && Produces(s, p, Miss, s2)
    ensures p < |s.producers| && WorksOn(s, p, s2)
  {
    assert ProducerOk(s, p);
    hide SequenceOk, SlotOk, ProducerStep, WorksOn;
    if s.producers[p].Filling? || s.producers[p].Publishing? {
      WriterMoves(s, p, s2);
    } else {
      CallerMoves(s, p, s2);
    }
  }

  lemma ProducerWorks<T>(s: Mp<T>, p: nat, s2: Mp<T>)
    requires Inv(s) && s2 != s && Produces(s, p, Miss, s2)
    ensures ClaimsNothing(s, s2) && Less(s2, s)
  {
    ProducerMoves(s, p, s2);
    hide Produces, Pending, Work, ProducerOk, SequenceOk, SlotOk;
    TotalWorkSet(s.producers, p, s2.producers[p]);
  }

  /** If the next sequence is published, or the consumer holds the mutex, any step of the
      consumer brings it closer to consuming. */
  lemma ConsumerWorks<T>(s: Mp<T>, s2: Mp<T>)
    requires Inv(s) && ConsumerStep(s, s2) && s.claimed > s.consumed
    requires (s.consumed + 1 in s.published && s.consumer != Asleep(false)) || !MutexFree(s.consumer)
    ensures ClaimsNothing(s, s2) && Less(s2, s)
  {
    hide Slot, Gen, ProducerOk, SlotOk, TotalWork;
    if s.consumer.Scanning? && s.consumer.at <= s.consumer.bound {
      ScanTest(s, s.consumer.at);
    }
  }

  // ------------------------------------------------------------------ the wait can end

  /** What the construction of a continuation keeps. */
  ghost predicate Hopeful<T>(s: Mp<T>, g: seq<nat>, o: nat) {
    Inv(s) && OneCall(s, g) && o < |s.producers| && s.producers[o].Waiting? && !Stuck(s, g, o)
  }

  lemma BlocksBefore<T>(s: Mp<T>, g: seq<nat>, s2: Mp<T>, w: nat, p: nat, q: int)
    requires ClaimsNothing(s, s2) && Blocks(s2, g, w, p, q)
    ensures Blocks(s, g, w, p, q)
  {
  }

  lemma StaysUnstuck<T>(s: Mp<T>, g: seq<nat>, s2: Mp<T>, o: nat)
    requires ClaimsNothing(s, s2) && o < |s.producers| && s2.producers[o] == s.producers[o] && !Stuck(s, g, o)
    ensures !Stuck(s2, g, o)
  {
    if Stuck(s2, g, o) {
      var w: nat, p: nat, q: int :| Blocks(s2, g, w, p, q) && q <= s2.producers[o].hi - s2.cap;
      BlocksBefore(s, g, s2, w, p, q);
    }
  }

  lemma NextIsFree<T>(s: Mp<T>, g: seq<nat>, o: nat)
    requires Hopeful(s, g, o) && s.producers[o].hi - s.cap > s.consumed
    ensures NextUnblocked(s, g) && s.claimed > s.consumed
  {
    hide Slot, Gen, SequenceOk, SlotOk, Blocks;
    assert ProducerOk(s, o);
    forall w: nat, p: nat ensures !BlocksNext(s, g, w, p) {
      assert Blocks(s, g, w, p, s.consumed + 1) ==> Stuck(s, g, o);
    }
  }

  /** While the wait cannot end yet, somebody takes a step towards it. */
  lemma StepTowards<T(!new)>(s: Mp<T>, g: seq<nat>, o: nat) returns (s2: Mp<T>)
    requires Hopeful(s, g, o) && s.producers[o].hi - s.cap > s.consumed
    ensures ThreadMoves(s, g, s2) && ClaimsNothing(s, s2) && s.claimed >= -1 && Less(s2, s)
  {
    NextIsFree(s, g, o);
    StateProgress(s, g);
    hide ProducerOk, SequenceOk, SlotOk, Stuck, NextUnblocked, ClaimsNothing, Less, ConsumerStep, Produces;
    if ThreadCanMove(s, g, g[s.owner[s.consumed + 1]]) {
      var p: nat :| Allowed(s, g, p) && g[p] == g[s.owner[s.consumed + 1]] && CanMove(s, p);
      s2 :| s2 != s && Produces(s, p, Miss, s2);
      ProducerWorks(s, p, s2);
    } else {
      s2 :| s2 != s && ConsumerStep(s, s2);
      ConsumerWorks(s, s2);
    }
  }

  lemma StaysHopeful<T(!new)>(s: Mp<T>, g: seq<nat>, o: nat, s2: Mp<T>)
    requires Hopeful(s, g, o) && s.producers[o].hi - s.cap > s.consumed
    requires ThreadMoves(s, g, s2) && ClaimsNothing(s, s2)
    ensures Hopeful(s2, g, o) && s2.producers[o] == s.producers[o]
  {
    WaitStays(s, g, o, s2);
    StaysUnstuck(s, g, s2, o);
    OneCallNext(s, g, s2);
    hide Inv, OneCall, Stuck, ClaimsNothing, ConsumerStep, Produces;
    if ConsumerStep(s, s2) {
      ConsumerKeeps(s, s2);
    } else {
      var p: nat, a: Choice<T> :| Allowed(s, g, p) && Produces(s, p, a, s2);
      ProducerKeeps(s, p, a, s2);
    }
  }

  function Gap(hi: int, cap: nat, consumed: int): nat {
    if hi - cap > consumed then hi - cap - consumed else 0
  }

  ghost predicate Path<T(!new)>(r: seq<Mp<T>>, g: seq<nat>) {
    r != [] && forall k :: 0 <= k < |r| - 1 ==> ThreadMoves(r[k], g, r[k + 1])
  }

  lemma PathFrom<T(!new)>(s: Mp<T>, g: seq<nat>, r: seq<Mp<T>>)
    requires Path(r, g) && ThreadMoves(s, g, r[0])
    ensures Path([s] + r, g)
  {
    hide ThreadMoves;
    var all := [s] + r;
    forall k | 0 <= k < |all| - 1 ensures ThreadMoves(all[k], g, all[k + 1]) {
      if k > 0 {
        assert ThreadMoves(r[k - 1], g, r[k - 1 + 1]);
      }
    }
  }

  /** The last step: the capacity is there. */
  lemma PassesNow<T(!new)>(s: Mp<T>, g: seq<nat>, o: nat) returns (s2: Mp<T>)
    requires Hopeful(s, g, o) && s.producers[o].hi - s.cap <= s.consumed
    ensures ThreadMoves(s, g, s2) && |s2.producers| == |s.producers| && s2.producers[o].Filling?
  {
    var pc := s.producers[o];
    s2 := SetProducer(s, o, Filling(pc.lo, pc.hi, pc.lo));
    assert Allowed(s, g, o);
    assert Produces(s, o, Miss, s2);
  }

  lemma {:induction false} PathToEnd<T(!new)>(s: Mp<T>, g: seq<nat>, o: nat) returns (r: seq<Mp<T>>)
    requires Hopeful(s, g, o) && s.claimed >= -1
    ensures Path(r, g) && r[0] == s && |r[|r| - 1].producers| == |s.producers| && r[|r| - 1].producers[o].Filling?
    decreases Gap(s.producers[o].hi, s.cap, s.consumed), TotalWork(s.producers), ConsumerWork(s.consumer, s.claimed)
  {
    hide ThreadMoves, Hopeful, TotalWork, ConsumerWork;
    HopefulWaits(s, g, o);
    if s.producers[o].hi - s.cap <= s.consumed {
      var s2 := PassesNow(s, g, o);
      r := [s, s2];
    } else {
      var s2 := StepTowards(s, g, o);
      StaysHopeful(s, g, o, s2);
      r := PathToEnd(s2, g, o);
      PathFrom(s, g, r);
      r := [s] + r;
    }
  }

  lemma HopefulWaits<T>(s: Mp<T>, g: seq<nat>, o: nat)
    requires Hopeful(s, g, o)
    ensures o < |s.producers| && s.producers[o].Waiting?
  {
  }

  // ------------------------------------------------------------------ exactly when

  /** `r2` is a run that goes on from `r` and ends with producer `o` past its wait. */
  ghost predicate Passes<T(!new)>(r: seq<Mp<T>>, r2: seq<Mp<T>>, g: seq<nat>, o: nat)
    requires r != []
  {
    && ThreadRun(r2, g) && r <= r2
    && o < |r2[|r2| - 1].producers| && !r2[|r2| - 1].producers[o].Waiting?
  }

  lemma RunOn<T(!new)>(r: seq<Mp<T>>, g: seq<nat>, more: seq<Mp<T>>) returns (r2: seq<Mp<T>>)
    requires ThreadRun(r, g) && Path(more, g) && more[0] == r[|r| - 1]
    ensures ThreadRun(r2, g) && r <= r2 && r2[|r2| - 1] == more[|more| - 1]
  {
    hide ThreadMoves, Init;
    r2 := r + more[1..];
    forall k | 0 <= k < |r2| - 1 ensures ThreadMoves(r2[k], g, r2[k + 1]) {
      if k >= |r| - 1 {
        var i := k - (|r| - 1);
        assert r2[k] == more[i] && r2[k + 1] == more[i + 1];
      }
    }
  }

  lemma UnstuckPasses<T(!new)>(r: seq<Mp<T>>, g: seq<nat>, o: nat) returns (r2: seq<Mp<T>>)
    requires ThreadRun(r, g) && o < |r[|r| - 1].producers| && r[|r| - 1].producers[o].Waiting?
    requires !Stuck(r[|r| - 1], g, o)
    ensures Passes(r, r2, g, o)
  {
    var s := r[|r| - 1];
    ThreadRunIsRun(r, g);
    Invariant(r, |r| - 1);
    OneCallThroughout(r, g, |r| - 1);
    assert Hopeful(s, g, o);
    hide Inv, OneCall, Hopeful, Run;
    ClaimsStart(s, g, o);
    var more := PathToEnd(s, g, o);
    hide Path;
    r2 := RunOn(r, g, more);
  }

  lemma ClaimsStart<T>(s: Mp<T>, g: seq<nat>, o: nat)
    requires Hopeful(s, g, o)
    ensures s.claimed >= -1
  {
  }

  /** A wait for capacity can end, in some continuation of the run, if and only if no thread
      blocks itself at or below the sequence that has to be consumed for it. */
  lemma WaitEndsIff<T(!new)>(r: seq<Mp<T>>, g: seq<nat>, o: nat)
    requires ThreadRun(r, g) && o < |r[|r| - 1].producers| && r[|r| - 1].producers[o].Waiting?
    ensures (exists r2 :: Passes(r, r2, g, o)) <==> !Stuck(r[|r| - 1], g, o)
  {
    if Stuck(r[|r| - 1], g, o) {
      forall r2 | ThreadRun(r2, g) && r <= r2 ensures !Passes(r, r2, g, o) {
        StuckForever(r2, g, |r| - 1, |r2| - 1, o);
      }
    } else {
      var r2 := UnstuckPasses(r, g, o);
    }
  }

  // ------------------------------------------------------------------ one claim per thread

  ghost predicate OneEach(g: seq<nat>) {
    forall p, q :: 0 <= p < |g| && 0 <= q < |g| && g[p] == g[q] ==> p == q
  }

  /** With one claim per thread and batches that fit, nobody blocks itself. */
  lemma FittingNeverBlocks<T>(s: Mp<T>, g: seq<nat>, w: nat, p: nat, q: int)
    requires OneEach(g) && BatchesFit(s)
    ensures !Blocks(s, g, w, p, q)
  {
  }

  lemma RunOfThreads<T(!new)>(r: seq<Mp<T>>, g: seq<nat>)
    requires Run(r) && OneEach(g) && |g| == |r[0].producers|
    ensures ThreadRun(r, g)
  {
    forall k | 0 <= k < |r| - 1 ensures ThreadMoves(r[k], g, r[k + 1]) {
      ProducersStay(r, k);
      assert Moves(r[k], r[k + 1]);
      assert forall p: nat :: p < |g| ==> Allowed(r[k], g, p);
      hide ConsumerStep, Produces;
      if !ConsumerStep(r[k], r[k + 1]) {
        var p: nat, a: Choice<T> :| Produces(r[k], p, a, r[k + 1]);
        InProducers(r[k], p, a, r[k + 1]);
      }
    }
  }

  lemma InProducers<T>(s: Mp<T>, p: nat, a: Choice<T>, s2: Mp<T>)
    requires Produces(s, p, a, s2)
    ensures p < |s.producers|
  {
  }

  lemma {:induction false} ProducersStay<T(!new)>(r: seq<Mp<T>>, k: nat)
    requires Run(r) && k < |r|
    ensures |r[k].producers| == |r[0].producers|
  {
    hide ConsumerStep, Produces, Init;
    if k > 0 {
      ProducersStay(r, k - 1);
      assert Moves(r[k - 1], r[k - 1 + 1]);
      if ConsumerStep(r[k - 1], r[k]) {
        ConsumerAlone(r[k - 1], r[k]);
      } else {
        var p: nat, a: Choice<T> :| Produces(r[k - 1], p, a, r[k]);
        ProducerAlone(r[k - 1], p, a, r[k]);
      }
    }
  }

  function Apart(n: nat): (g: seq<nat>)
    ensures |g| == n && OneEach(g) && forall p :: 0 <= p < n ==> g[p] == p
  {
    seq(n, p => p)
  }

  /** Deadlock freedom when every producer is a thread of its own: for batches up to the
      capacity, while a claim is unconsumed the consumer or the owner of the next sequence can
      take a step. */
  lemma FittingProgress<T(!new)>(r: seq<Mp<T>>, k: nat)
    requires Run(r) && k < |r| && BatchesFit(r[k]) && r[k].claimed > r[k].consumed
    ensures -1 <= r[k].consumed && r[k].consumed + 1 < |r[k].owner|
    ensures ConsumerCanMove(r[k]) || CanMove(r[k], r[k].owner[r[k].consumed + 1])
  {
    var g := Apart(|r[0].producers|);
    RunOfThreads(r, g);
    forall w: nat, p: nat ensures !BlocksNext(r[k], g, w, p) {
      FittingNeverBlocks(r[k], g, w, p, r[k].consumed + 1);
    }
    Progress(r, g, k);
  }

  /** And every wait for capacity can end. */
  lemma FittingWaitEnds<T(!new)>(r: seq<Mp<T>>, o: nat) returns (r2: seq<Mp<T>>)
    requires Run(r) && BatchesFit(r[|r| - 1]) && o < |r[|r| - 1].producers| && r[|r| - 1].producers[o].Waiting?
    ensures Run(r2) && r <= r2 && o < |r2[|r2| - 1].producers| && !r2[|r2| - 1].producers[o].Waiting?
  {
    var g := Apart(|r[0].producers|);
    RunOfThreads(r, g);
    var s := r[|r| - 1];
    forall w: nat, p: nat, q: int ensures !Blocks(s, g, w, p, q) {
      FittingNeverBlocks(s, g, w, p, q);
    }
    hide Blocks, ThreadRun, Run;
    r2 := UnstuckPasses(r, g, o);
    ThreadRunIsRun(r2, g);
  }

  // ------------------------------------------------------------------ such runs exist

  ghost function FreshRing<T>(cap: nat, n: nat, v: T): Mp<T> {
    Mp(cap, -1, -1, seq(cap, _ => -1), seq(cap, _ => v), -1, seq(n, _ => Resting), Pulling, [], [], {}, [])
  }

  ghost function Begun<T>(s: Mp<T>, p: nat, vs: seq<T>): Mp<T>
    requires p < |s.producers|
  {
    SetProducer(Claim(s, p, vs), p, Waiting(s.claimed + 1, s.claimed + |vs|))
  }

  lemma BeginMoves<T(!new)>(s: Mp<T>, g: seq<nat>, p: nat, vs: seq<T>)
    requires Allowed(s, g, p) && s.producers[p] == Resting
    ensures ThreadMoves(s, g, Begun(s, p, vs)) && |Begun(s, p, vs).producers| == |s.producers|
    ensures Begun(s, p, vs).producers == s.producers[p := Waiting(s.claimed + 1, s.claimed + |vs|)]
    ensures Begun(s, p, vs).claimed == s.claimed + |vs| && Begun(s, p, vs).cap == s.cap
  {
    assert Produces(s, p, Begin(vs), Begun(s, p, vs));
  }

  /** Producer `p` claims one sequence and fills it; `w` of the same thread claims a whole ring
      and waits; and `o`, of another thread and holding nothing, waits behind them. All batches
      fit, no claim of `o`'s own thread is in its way, and neither wait can ever end. */
  lemma SelfBlocking<T(!new)>(cap: nat, g: seq<nat>, p: nat, w: nat, o: nat, v: T) returns (r: seq<Mp<T>>)
    requires cap > 0 && p < |g| && w < |g| && o < |g| && p != w && g[p] == g[w] != g[o]
    ensures ThreadRun(r, g) && BatchesFit(r[|r| - 1]) && r[|r| - 1].cap == cap
    ensures var s := r[|r| - 1];
            && |s.producers| == |g| && s.producers[o] == Waiting(cap + 1, cap + 1)
            && Blocks(s, g, w, p, 0) && Stuck(s, g, w) && Stuck(s, g, o)
            && forall p2: nat, q: int :: !Blocks(s, g, o, p2, q)
  {
    hide ThreadMoves, ThreadRun, Stuck, Blocks, BatchesFit, Begun;
    r := ClaimHeld(cap, g, p, v);
    var s2, vs := r[|r| - 1], seq(cap, _ => v);
    BeginMoves(s2, g, w, vs);
    var s3 := Begun(s2, w, vs);
    r := AppendState(r, g, s3);
    BeginMoves(s3, g, o, [v]);
    var s4 := Begun(s3, o, [v]);
    r := AppendState(r, g, s4);
    OthersRest(s4, g, p, w, o);
  }

  lemma AppendState<T(!new)>(r: seq<Mp<T>>, g: seq<nat>, s: Mp<T>) returns (r2: seq<Mp<T>>)
    requires ThreadRun(r, g) && ThreadMoves(r[|r| - 1], g, s)
    ensures ThreadRun(r2, g) && r2[|r2| - 1] == s
  {
    hide ThreadMoves, Init;
    r2 := r + [s];
    forall k | 0 <= k < |r2| - 1 ensures ThreadMoves(r2[k], g, r2[k + 1]) {
      assert k < |r| - 1 ==> r2[k + 1] == r[k + 1];
    }
  }

  /** Producer `p` has claimed sequence 0 and is filling it, and nothing else happened. */
  lemma ClaimHeld<T(!new)>(cap: nat, g: seq<nat>, p: nat, v: T) returns (r: seq<Mp<T>>)
    requires cap > 0 && p < |g|
    ensures ThreadRun(r, g)
    ensures var s := r[|r| - 1];
            && s.cap == cap && s.claimed == 0 && |s.producers| == |g| && s.producers[p] == Filling(0, 0, 0)
            && forall i :: 0 <= i < |g| && i != p ==> s.producers[i] == Resting
  {
    var s0 := FreshRing(cap, |g|, v);
    assert Init(s0);
    r := [s0];
    assert ThreadRun(r, g);
    var s1 := Begun(s0, p, [v]);
    BeginMoves(s0, g, p, [v]);
    r := AppendState(r, g, s1);
    var s2 := SetProducer(s1, p, Filling(0, 0, 0));
    assert Produces(s1, p, Miss, s2) && Allowed(s1, g, p);
    r := AppendState(r, g, s2);
  }

  lemma OthersRest<T>(s: Mp<T>, g: seq<nat>, p: nat, w: nat, o: nat)
    requires s.cap > 0 && |s.producers| == |g| && p < |g| && w < |g| && o < |g| && p != w && g[p] == g[w] != g[o]
    requires s.producers[p] == Filling(0, 0, 0) && s.producers[w] == Waiting(1, s.cap)
    requires s.producers[o] == Waiting(s.cap + 1, s.cap + 1)
    requires forall i :: 0 <= i < |g| && i != p && i != w && i != o ==> s.producers[i] == Resting
    ensures BatchesFit(s) && Blocks(s, g, w, p, 0) && Stuck(s, g, w) && Stuck(s, g, o)
    ensures forall p2: nat, q: int :: !Blocks(s, g, o, p2, q)
  {
    assert Blocks(s, g, w, p, 0);
    assert 0 <= s.producers[w].hi - s.cap && 0 <= s.producers[o].hi - s.cap;
  }
}
