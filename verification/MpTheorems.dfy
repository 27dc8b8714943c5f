/**
 What the multi-producer disruptor guarantees: it refines a FIFO queue, and its truncated
 generation test is exact as far as claims that fit the ring can run ahead.
 */
module MpTheorems {
  import opened Basics
  import opened Generation
  import opened MpModel
  import opened MpInvariant
  import Fifo

  // ------------------------------------------------------------------ the contiguous frontier

  /** The end of the gap-free stretch of published sequences that starts at `at`. */
  ghost function Frontier(published: set<int>, at: int, bound: int): int
    requires at <= bound + 1
    decreases bound - at + 1
  {
    if at <= bound && at in published then Frontier(published, at + 1, bound) else at - 1
  }

  lemma {:induction false} FrontierIs(published: set<int>, at: int, bound: int, f: int)
    requires at - 1 <= f <= bound
    requires forall q :: at <= q <= f ==> q in published
    requires f < bound ==> f + 1 !in published
    ensures Frontier(published, at, bound) == f
    decreases f - at + 1
  {
    if at <= f {
      FrontierIs(published, at + 1, bound, f);
    }
  }

  lemma {:induction false} FrontierSpec(published: set<int>, at: int, bound: int)
    requires at <= bound + 1
    ensures var f := Frontier(published, at, bound);
            && at - 1 <= f <= bound
            && (forall q :: at <= q <= f ==> q in published)
            && (f < bound ==> f + 1 !in published)
    decreases bound - at + 1
  {
    if at <= bound && at in published {
      FrontierSpec(published, at + 1, bound);
    }
  }

  // ------------------------------------------------------------------ refinement

  /** The queue a state stands for: the published values not yet taken, up to the first gap. */
  ghost function Abs<T>(s: Mp<T>): Fifo.Fifo<T>
    requires Shape(s) && ConsumerOk(s)
  {
    FrontierSpec(s.published, |s.pulled|, s.claimed);
    Fifo.Fifo(s.log[|s.pulled| .. Frontier(s.published, |s.pulled|, s.claimed) + 1], s.pulled)
  }

  lemma AbsInit<T>(s: Mp<T>)
    requires Init(s)
    ensures Inv(s) && Abs(s) == Fifo.Fifo([], [])
  {
    InvInit(s);
  }

  /** A step that takes nothing out may extend the queue at its end, and changes nothing else. */
  lemma AbsGrows<T(!new)>(s: Mp<T>, s2: Mp<T>)
    requires Shape(s) && ConsumerOk(s) && Shape(s2) && ConsumerOk(s2)
    requires s2.pulled == s.pulled && s.log <= s2.log && s.published <= s2.published
    ensures Fifo.Next(Abs(s), Abs(s2))
  {
    var n := |s.pulled|;
    FrontierSpec(s.published, n, s.claimed);
    FrontierSpec(s2.published, n, s2.claimed);
    var f, f2 := Frontier(s.published, n, s.claimed), Frontier(s2.published, n, s2.claimed);
    assert f <= f2;
    assert s.log[n .. f + 1] <= s2.log[n .. f2 + 1];
  }

  lemma AbsTakes<T(!new)>(s: Mp<T>, s2: Mp<T>)
    requires Inv(s) && s.consumer.Reading? && s.consumer.at <= s.consumer.hi && ConsumerStep(s, s2)
    ensures Inv(s2) && Fifo.Next(Abs(s), Abs(s2))
  {
    ReadKeeps(s, s2);
    hide Slot, Gen, ProducerOk, SequenceOk, SlotOk;
    var n := |s.pulled|;
    FrontierSpec(s.published, n, s.claimed);
    var f := Frontier(s.published, n, s.claimed);
    assert Frontier(s.published, n + 1, s.claimed) == f;
    assert s.log[n .. f + 1][1..] == s.log[n + 1 .. f + 1];
    assert Abs(s2) == Fifo.Fifo(Abs(s).queue[1..], Abs(s).out + [Abs(s).queue[0]]);
  }

  lemma ProducerExtends<T>(s: Mp<T>, p: nat, a: Choice<T>, s2: Mp<T>)
    requires Produces(s, p, a, s2)
    ensures s2.pulled == s.pulled && s.log <= s2.log && s.published <= s2.published
  {
    hide Slot, Gen;
  }

  lemma ConsumerExtends<T>(s: Mp<T>, s2: Mp<T>)
    requires ConsumerStep(s, s2) && !(s.consumer.Reading? && s.consumer.at <= s.consumer.hi)
    ensures s2.pulled == s.pulled && s.log <= s2.log && s.published <= s2.published
  {
    hide Slot, Gen;
  }

  lemma StepRefines<T(!new)>(s: Mp<T>, s2: Mp<T>)
    requires Inv(s) && Moves(s, s2)
    ensures Inv(s2) && Fifo.Next(Abs(s), Abs(s2))
  {
    hide ProducerOk, SequenceOk, SlotOk, SignalOwed, Abs, Fifo.Next, ConsumerStep, Produces;
    if ConsumerStep(s, s2) {
      if s.consumer.Reading? && s.consumer.at <= s.consumer.hi {
        AbsTakes(s, s2);
      } else {
        ConsumerKeeps(s, s2);
        ConsumerExtends(s, s2);
        AbsGrows(s, s2);
      }
    } else {
      var p: nat, a: Choice<T> :| Produces(s, p, a, s2);
      ProducerKeeps(s, p, a, s2);
      ProducerExtends(s, p, a, s2);
      AbsGrows(s, s2);
    }
  }

  /** What was taken and what may be taken are together a prefix of the claimed values. */
  lemma AbsIsLog<T>(s: Mp<T>)
    requires Shape(s) && ConsumerOk(s)
    ensures Abs(s).out + Abs(s).queue <= s.log
  {
    FrontierSpec(s.published, |s.pulled|, s.claimed);
    var f := Frontier(s.published, |s.pulled|, s.claimed);
    assert s.log[..|s.pulled|] + s.log[|s.pulled| .. f + 1] == s.log[..f + 1];
  }

  /** Every run of the disruptor is a run of the queue: it starts empty, each step enqueues
      values, takes the oldest one, or leaves the queue alone, and the values are the claimed
      ones in sequence order. */
  lemma RefinesFifo<T(!new)>(r: seq<Mp<T>>, k: nat)
    requires Run(r) && k < |r|
    ensures Inv(r[k]) && Abs(r[k]).out + Abs(r[k]).queue <= r[k].log
    ensures k == 0 ==> Abs(r[k]) == Fifo.Fifo([], [])
    ensures k + 1 < |r| ==> Inv(r[k + 1]) && Fifo.Next(Abs(r[k]), Abs(r[k + 1]))
  {
    Invariant(r, k);
    AbsIsLog(r[k]);
    hide Inv, Init, Moves, Abs;
    if k == 0 {
      AbsInit(r[0]);
    }
    if k + 1 < |r| {
      StepRefines(r[k], r[k + 1]);
    }
  }

  /** The values taken are the values claimed, in sequence order, each once, and none before
      it and everything below it was published. */
  lemma PulledInOrder<T(!new)>(r: seq<Mp<T>>, k: nat)
    requires Run(r) && k < |r|
    ensures r[k].pulled <= r[k].log
    ensures forall q :: 0 <= q < |r[k].pulled| ==> q in r[k].published
  {
    Invariant(r, k);
    hide Run, Slot, Gen, ProducerOk, SlotOk;
    forall q | 0 <= q < |r[k].pulled| ensures q in r[k].published {
      assert SequenceOk(r[k], q);
    }
  }

  /** No slot is overwritten before its occupant is consumed. */
  lemma UnconsumedIntact<T(!new)>(r: seq<Mp<T>>, k: nat, q: int)
    requires Run(r) && k < |r| && q in r[k].published && q > r[k].consumed
    ensures r[k].cap > 0 && |r[k].ring| == r[k].cap && 0 <= q < |r[k].log|
    ensures r[k].ring[Slot(q, r[k].cap)] == r[k].log[q]
  {
    Invariant(r, k);
    hide Run, Slot, Gen;
    assert SequenceOk(r[k], q) && SlotOk(r[k], q);
  }

  /** The consumer's cached frontier never exceeds the true one. */
  lemma CachedFrontier<T(!new)>(r: seq<Mp<T>>, k: nat)
    requires Run(r) && k < |r|
    ensures 0 <= r[k].claimed + 1 && r[k].consumed <= r[k].claimed
    ensures r[k].cached <= Frontier(r[k].published, 0, r[k].claimed)
    ensures r[k].consumed <= Frontier(r[k].published, 0, r[k].claimed)
  {
    Invariant(r, k);
    hide Run, Slot, Gen, ProducerOk, SlotOk;
    var s := r[k];
    FrontierSpec(s.published, 0, s.claimed);
    var f := Frontier(s.published, 0, s.claimed);
    assert SequenceOk(s, f + 1);
  }

  // ------------------------------------------------------------------ the generation test

  predicate Available<T>(s: Mp<T>, q: int)
    requires s.cap > 0 && |s.gens| == s.cap
  {
    s.gens[Slot(q, s.cap)] == Gen(q, s.cap)
  }

  /** How many laps ahead of the window `q` is, and its slot's representative in the window. */
  function LapsAhead<T>(s: Mp<T>, q: int): int
    requires s.cap > 0
  {
    (q - s.consumed - 1) / s.cap
  }

  function Representative<T>(s: Mp<T>, q: int): int
    requires s.cap > 0
  {
    q - s.cap * LapsAhead(s, q)
  }

  lemma SlotOfMultiple(q: int, cap: nat, m: int)
    requires cap > 0
    ensures Slot(q - cap * m, cap) == Slot(q, cap) && (q - cap * m) / cap == q / cap - m
  {
    Difference(cap, q / cap, m);
    DivModUnique(q - cap * m, cap, q / cap - m, q % cap);
  }

  lemma RepresentativeInWindow<T>(s: Mp<T>, q: int)
    requires s.cap > 0 && q > s.consumed
    ensures LapsAhead(s, q) >= 0 && InWindow(s, Representative(s, q))
    ensures Slot(Representative(s, q), s.cap) == Slot(q, s.cap)
    ensures Representative(s, q) / s.cap == q / s.cap - LapsAhead(s, q)
    ensures LapsAhead(s, q) == 0 <==> InWindow(s, q)
  {
    var d := q - s.consumed - 1;
    assert d == s.cap * (d / s.cap) + d % s.cap;
    SlotOfMultiple(q, s.cap, LapsAhead(s, q));
    Multiple(s.cap, d / s.cap);
  }

  /** The laps between `q` and the sequence last stored in its slot. */
  ghost function LapsBehind<T>(s: Mp<T>, q: int): int
    requires s.cap > 0
  {
    LapsAhead(s, q) + if Representative(s, q) in s.published then 0 else 1
  }

  /** The test for `q` above the consumed position succeeds exactly when the slot's content is
      a multiple of 2^32 laps behind; it is a false positive when that multiple is not zero. */
  lemma AvailabilityExact<T>(s: Mp<T>, q: int)
    requires Inv(s) && q > s.consumed
    ensures Available(s, q) <==> LapsBehind(s, q) % TWO_32 == 0
    ensures q in s.published <==> LapsBehind(s, q) == 0
    ensures LapsBehind(s, q) >= 0
  {
    RepresentativeInWindow(s, q);
    var w := Representative(s, q);
    assert SlotOk(s, w) && SequenceOk(s, q);
    SlotShift(w, s.cap);
    GenEquality(q, if w in s.published then w else w - s.cap, s.cap);
    assert LapsAhead(s, q) == 0 ==> w == q;
  }

  /** Within 2^32 - 1 laps of the consumed position the test is exact. */
  lemma AvailableIffPublished<T>(s: Mp<T>, q: int)
    requires Inv(s) && s.consumed < q <= s.consumed + s.cap * (TWO_32 - 1)
    ensures Available(s, q) <==> q in s.published
  {
    AvailabilityExact(s, q);
    QuotientBelow(q - s.consumed - 1, s.cap, TWO_32 - 1);
  }

  lemma ExactQuotient(cap: nat, m: int)
    requires cap > 0
    ensures (cap * m) / cap == m
  {
    DivModUnique(cap * m, cap, m, 0);
  }

  /** The bound is sharp in every state and for every capacity: one sequence further nothing can
      be published, and the test still succeeds exactly if the next sequence to be consumed is
      not published either. */
  lemma BoundIsSharp<T>(s: Mp<T>, q: int)
    requires Inv(s) && q == s.consumed + s.cap * (TWO_32 - 1) + 1
    ensures q !in s.published
    ensures Available(s, q) <==> s.consumed + 1 !in s.published
  {
    Multiple(s.cap, TWO_32 - 1);
    ExactQuotient(s.cap, TWO_32 - 1);
    AvailabilityExact(s, q);
  }

  /** And it is reached: on any ring, one batch of that many claims makes the last of them look
      available although nothing was ever published. */
  lemma AvailabilityWraps<T>(s: Mp<T>, vs: seq<T>, s2: Mp<T>)
    requires Init(s) && |s.producers| > 0 && |vs| == s.cap * (TWO_32 - 1) + 1
    requires ProducerStep(s, 0, Begin(vs), s2)
    ensures Inv(s2) && s2.claimed - s2.consumed == s2.cap * (TWO_32 - 1) + 1
    ensures s2.published == {} && Available(s2, s2.claimed)
  {
    InvInit(s);
    assert Produces(s, 0, Begin(vs), s2);
    ProducerKeeps(s, 0, Begin(vs), s2);
    BoundIsSharp(s2, s2.claimed);
  }

  /** scan_published over one reading of the generations. */
  method ScanPublished(gens: seq<int>, cap: nat, lower: int, claimed: int) returns (r: int)
    requires cap > 0 && |gens| == cap
    ensures lower > claimed ==> r == claimed
    ensures lower <= claimed ==> lower - 1 <= r <= claimed
    ensures forall q :: lower <= q <= r ==> gens[Slot(q, cap)] == Gen(q, cap)
    ensures lower <= claimed && r < claimed ==> gens[Slot(r + 1, cap)] != Gen(r + 1, cap)
  {
    var q := lower;
    while q <= claimed
      invariant lower <= q && (lower <= claimed ==> q <= claimed + 1)
      invariant forall j :: lower <= j < q ==> gens[Slot(j, cap)] == Gen(j, cap)
    {
      if gens[Slot(q, cap)] != Gen(q, cap) {
        return q - 1;
      }
      q := q + 1;
    }
    return claimed;
  }

  /** A scan from consumed + 1 finds exactly the highest gap-free published sequence within its
      bound, however far the claims have run ahead. */
  lemma ScanIsFrontier<T>(s: Mp<T>, bound: int, r: int)
    requires Inv(s) && s.consumed + 1 <= bound <= s.claimed && s.consumed <= r <= bound
    requires forall q :: s.consumed < q <= r ==> Available(s, q)
    requires r < bound ==> !Available(s, r + 1)
    ensures r == Frontier(s.published, s.consumed + 1, bound)
  {
    hide Slot, Gen, Frontier;
    ScannedPublished(s, r);
    if r < bound {
      ScanTest(s, r + 1);
    }
    FrontierIs(s.published, s.consumed + 1, bound, r);
  }

  lemma {:induction false} ScannedPublished<T>(s: Mp<T>, r: int)
    requires Inv(s) && s.consumed <= r <= s.claimed
    requires forall q :: s.consumed < q <= r ==> Available(s, q)
    ensures forall q :: s.consumed < q <= r ==> q in s.published
    decreases r - s.consumed
  {
    hide Slot, Gen;
    if r > s.consumed {
      ScannedPublished(s, r - 1);
      ScanTest(s, r);
      assert Available(s, r);
    }
  }

  // ------------------------------------------------------------------ waiting

  /** No producer waits with more sequences than the ring holds. */
  ghost predicate BatchesFit<T>(s: Mp<T>) {
    forall p :: 0 <= p < |s.producers| && s.producers[p].Waiting? ==> s.producers[p].hi - s.producers[p].lo < s.cap
  }

  /** A batch larger than the ring never gets past the capacity wait. */
  lemma OversizedNeverPasses<T(!new)>(r: seq<Mp<T>>, k: nat, p: nat)
    requires Run(r) && k < |r| && p < |r[k].producers| && r[k].producers[p].Waiting?
    requires r[k].producers[p].hi - r[k].producers[p].lo >= r[k].cap
    ensures r[k].producers[p].hi - r[k].cap > r[k].consumed
  {
    Invariant(r, k);
    hide Run, Slot, Gen, SlotOk;
    var s := r[k];
    assert ProducerOk(s, p) && Pending(s.producers[p], s.producers[p].lo);
    assert SequenceOk(s, s.producers[p].lo);
  }

  /** A consumer parked by the blocking strategy although its target is claimed has a signal coming. */
  lemma ParkedHasSignal<T(!new)>(r: seq<Mp<T>>, k: nat)
    requires Run(r) && k < |r| && Parked(r[k].consumer) && r[k].claimed >= r[k].consumed + 1
    ensures exists p :: 0 <= p < |r[k].producers| && OwesSignal(r[k].producers[p], r[k].consumed + 1)
  {
    Invariant(r, k);
  }

  // ------------------------------------------------------------------ how far claims run ahead

  /** Sequences beyond the window whose claimer is one of the first `n` producers. */
  ghost function Beyond<T>(s: Mp<T>, n: nat): set<int>
    requires Shape(s)
  {
    set q | 0 <= q <= s.claimed && q > s.consumed + s.cap && s.owner[q] < n
  }

  ghost function Interval(lo: int, hi: int): (r: set<int>)
    requires lo <= hi + 1
    ensures forall q :: q in r <==> lo <= q <= hi
    ensures |r| == hi - lo + 1
    decreases hi - lo + 1
  {
    if lo > hi then {} else {lo} + Interval(lo + 1, hi)
  }

  /** What the claimer `n` has beyond the window it is waiting for. */
  ghost function Awaited(pc: Producer): set<int> {
    if pc.Waiting? && pc.lo <= pc.hi + 1 then Interval(pc.lo, pc.hi) else {}
  }

  lemma BeyondIsAwaited<T>(s: Mp<T>, n: nat, q: int)
    requires Inv(s) && n < |s.producers| && q in Beyond(s, n + 1)
    ensures q in Beyond(s, n) || q in Awaited(s.producers[n])
  {
    hide Slot, Gen, SlotOk;
    assert SequenceOk(s, q) && ProducerOk(s, n);
  }

  lemma UnionSize(a: set<int>, b: set<int>, c: set<int>)
    requires c <= a + b
    ensures |c| <= |a| + |b|
  {
    SubsetSize(c, a + b);
  }

  lemma AwaitedFits<T>(s: Mp<T>, n: nat)
    requires BatchesFit(s) && n < |s.producers|
    ensures |Awaited(s.producers[n])| <= s.cap
  {
  }

  lemma OneMore(n: nat, c: nat)
    ensures (n + 1) * c == n * c + c
  {
  }

  lemma BeyondGrows<T>(s: Mp<T>, n: nat)
    requires Inv(s) && BatchesFit(s) && n < |s.producers|
    ensures |Beyond(s, n + 1)| <= |Beyond(s, n)| + s.cap
  {
    forall q | q in Beyond(s, n + 1) ensures q in Beyond(s, n) + Awaited(s.producers[n]) {
      BeyondIsAwaited(s, n, q);
    }
    AwaitedFits(s, n);
    hide Beyond, Awaited, BatchesFit, ProducerOk, SequenceOk, SlotOk;
    UnionSize(Beyond(s, n), Awaited(s.producers[n]), Beyond(s, n + 1));
  }

  lemma {:induction false} BeyondSize<T>(s: Mp<T>, n: nat)
    requires Inv(s) && BatchesFit(s) && n <= |s.producers|
    ensures |Beyond(s, n)| <= n * s.cap
  {
    if n > 0 {
      hide BatchesFit, ProducerOk, SequenceOk, SlotOk, Beyond;
      BeyondSize(s, n - 1);
      BeyondGrows(s, n - 1);
      OneMore(n - 1, s.cap);
    } else {
      assert Beyond(s, n) == {};
    }
  }

  /** With batches that fit, the claims run at most one ring per producer past the window. */
  lemma ClaimsBounded<T>(s: Mp<T>)
    requires Inv(s) && BatchesFit(s)
    ensures s.claimed - s.consumed <= (|s.producers| + 1) * s.cap
  {
    var n := |s.producers|;
    BeyondSize(s, n);
    OneMore(n, s.cap);
    if s.claimed > s.consumed + s.cap {
      hide Slot, Gen, SlotOk, ProducerOk;
      var tail := Interval(s.consumed + s.cap + 1, s.claimed);
      forall q | q in tail ensures q in Beyond(s, n) {
        assert SequenceOk(s, q);
      }
      SubsetSize(tail, Beyond(s, n));
    }
  }

  /** So with fewer than 2^32 - 1 producers and fitting batches the test is exact everywhere. */
  lemma GenerationsSuffice<T>(s: Mp<T>, q: int)
    requires Inv(s) && BatchesFit(s) && |s.producers| <= TWO_32 - 2 && s.consumed < q <= s.claimed
    ensures Available(s, q) <==> q in s.published
  {
    ClaimsBounded(s);
    MultiplyBoth(|s.producers| + 1, TWO_32 - 1, s.cap);
    AvailableIffPublished(s, q);
  }

  // ------------------------------------------------------------------ what each call does

  /** try_next goes on to the exchange exactly if the sequence after the one it read fits the
      ring, and else gives up; neither changes anything else. */
  lemma TryChecks<T(!new)>(r: seq<Mp<T>>, k: nat, p: nat, a: Choice<T>)
    requires Run(r) && k + 1 < |r| && p < |r[k].producers| && r[k].producers[p].Checking?
    requires Produces(r[k], p, a, r[k + 1])
    ensures var s, seen := r[k], r[k].producers[p].seen;
            && r[k + 1] == s.(producers := r[k + 1].producers) && |r[k + 1].producers| == |s.producers|
            && (forall q :: 0 <= q < |s.producers| && q != p ==> r[k + 1].producers[q] == s.producers[q])
            && r[k + 1].producers[p] == if seen + 1 - s.consumed <= s.cap then Exchanging(seen) else Resting
  {
  }

  /** The exchange claims exactly one sequence if nobody claimed since, and else nothing. */
  lemma TryExchanges<T(!new)>(r: seq<Mp<T>>, k: nat, p: nat, v: T)
    requires Run(r) && k + 1 < |r| && p < |r[k].producers| && r[k].producers[p].Exchanging?
    requires Produces(r[k], p, Go(v), r[k + 1])
    ensures var s, s2, seen := r[k], r[k + 1], r[k].producers[p].seen;
            && |s2.producers| == |s.producers|
            && if s.claimed == seen
               then s2.claimed == seen + 1 && s2.log == s.log + [v] && s2.owner == s.owner + [p]
                    && s2.producers[p] == Filling(seen + 1, seen + 1, seen + 1)
               else s2.claimed == s.claimed && s2.log == s.log && s2.producers[p] == Resting
  {
  }

  /** Undisturbed, try_next claims a sequence if and only if fewer than the capacity are claimed
      and unconsumed. */
  lemma TryNextAlone<T(!new)>(s: Mp<T>, p: nat, v: T, s1: Mp<T>, s2: Mp<T>, s3: Mp<T>)
    requires p < |s.producers| && s.producers[p] == Resting
    requires Produces(s, p, Try, s1) && Produces(s1, p, Miss, s2)
    requires if s2.producers[p].Exchanging? then Produces(s2, p, Go(v), s3) else s3 == s2
    ensures if s.claimed - s.consumed < s.cap
            then s3.log == s.log + [v] && s3.claimed == s.claimed + 1 && p < |s3.producers|
                 && s3.producers[p] == Filling(s3.claimed, s3.claimed, s3.claimed)
            else s3 == s
  {
    assert s2.producers[p].Resting? ==> s2.producers == s.producers;
  }

  /** next and next_batch claim their values at once, at the end of the sequence order. */
  lemma NextClaims<T(!new)>(s: Mp<T>, p: nat, vs: seq<T>, s2: Mp<T>)
    requires Inv(s) && p < |s.producers| && s.producers[p] == Resting && Produces(s, p, Begin(vs), s2)
    ensures s2.log == s.log + vs && s2.claimed == s.claimed + |vs| && |s2.producers| == |s.producers|
    ensures s2.producers[p] == Waiting(s.claimed + 1, s.claimed + |vs|) && s2.published == s.published
    ensures |s2.owner| == |s2.log| && forall q :: s.claimed < q <= s2.claimed ==> s2.owner[q] == p
  {
  }

  /** When publish or publish_batch is about to signal, all its sequences are published. */
  lemma PublishedByThen<T(!new)>(r: seq<Mp<T>>, k: nat, p: nat, q: int)
    requires Run(r) && k < |r| && p < |r[k].producers| && r[k].producers[p].Signalling?
    requires r[k].producers[p].lo <= q <= r[k].producers[p].hi
    ensures q in r[k].published
  {
    Invariant(r, k);
    hide Run, Slot, Gen, SlotOk;
    assert ProducerOk(r[k], p) && SequenceOk(r[k], q);
  }
}
