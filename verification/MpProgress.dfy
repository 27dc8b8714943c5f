/**
 Progress of the multi-producer disruptor. A thread may hold several claims at once; each is a
 producer of the model, and `g` says which thread a producer belongs to. A thread is inside at
 most one call at a time, so while it waits for capacity it cannot publish its other claims.
 The disruptor moves on as long as no thread waits for room that the next sequence to be
 consumed takes up, unpublished with that same thread; a thread that waits for room its own
 unpublished claims take up waits forever.
 */
module MpProgress {
  import opened Generation
  import opened MpModel
  import opened MpInvariant

  // ------------------------------------------------------------------ threads

  /** Inside a call to the sequencer; a producer that is filling its slots is between calls. */
  predicate InCall(pc: Producer) {
    pc.Waiting? || pc.Publishing? || pc.Signalling? || pc.Checking? || pc.Exchanging?
  }

  /** No other producer of the same thread is inside a call. */
  ghost predicate Allowed<T>(s: Mp<T>, g: seq<nat>, p: nat) {
    && p < |s.producers| == |g|
    && forall o :: 0 <= o < |g| && o != p && g[o] == g[p] ==> !InCall(s.producers[o])
  }

  ghost predicate ThreadMoves<T(!new)>(s: Mp<T>, g: seq<nat>, s2: Mp<T>) {
    || ConsumerStep(s, s2)
    || exists p: nat, a: Choice<T> {:trigger Produces(s, p, a, s2)} :: Allowed(s, g, p) && Produces(s, p, a, s2)
  }

  ghost predicate ThreadRun<T(!new)>(r: seq<Mp<T>>, g: seq<nat>) {
    && r != [] && Init(r[0]) && |r[0].producers| == |g|
    && forall k :: 0 <= k < |r| - 1 ==> ThreadMoves(r[k], g, r[k + 1])
  }

  lemma ThreadRunIsRun<T(!new)>(r: seq<Mp<T>>, g: seq<nat>)
    requires ThreadRun(r, g)
    ensures Run(r)
  {
    hide ConsumerStep, Produces, Init;
    forall k | 0 <= k < |r| - 1 ensures Moves(r[k], r[k + 1]) {
      assert ThreadMoves(r[k], g, r[k + 1]);
    }
  }

  /** Every thread is inside at most one call. */
  ghost predicate OneCall<T>(s: Mp<T>, g: seq<nat>) {
    |s.producers| == |g| && forall p :: 0 <= p < |g| && InCall(s.producers[p]) ==> Allowed(s, g, p)
  }

  lemma ProducerAlone<T>(s: Mp<T>, p: nat, a: Choice<T>, s2: Mp<T>)
    requires Produces(s, p, a, s2)
    ensures |s2.producers| == |s.producers| && s2.producers == s.producers[p := s2.producers[p]] && s2.cap == s.cap
  {
    hide Slot, Gen;
  }

  lemma ConsumerAlone<T>(s: Mp<T>, s2: Mp<T>)
    requires ConsumerStep(s, s2)
    ensures s2.producers == s.producers && s2.cap == s.cap
  {
    hide Slot, Gen;
  }

  lemma OneCallNext<T(!new)>(s: Mp<T>, g: seq<nat>, s2: Mp<T>)
    requires OneCall(s, g) && ThreadMoves(s, g, s2)
    ensures OneCall(s2, g)
  {
    hide ConsumerStep, Produces;
    if ConsumerStep(s, s2) {
      ConsumerAlone(s, s2);
      assert forall p :: Allowed(s2, g, p) == Allowed(s, g, p);
    } else {
      var p: nat, a: Choice<T> :| Allowed(s, g, p) && Produces(s, p, a, s2);
      ProducerAlone(s, p, a, s2);
      forall o | 0 <= o < |g| && InCall(s2.producers[o]) ensures Allowed(s2, g, o) {
        assert o != p ==> g[o] != g[p] && Allowed(s, g, o);
      }
    }
  }

  lemma {:induction false} OneCallThroughout<T(!new)>(r: seq<Mp<T>>, g: seq<nat>, k: nat)
    requires ThreadRun(r, g) && k < |r|
    ensures OneCall(r[k], g)
  {
    hide ThreadMoves;
    if k > 0 {
      OneCallThroughout(r, g, k - 1);
      assert ThreadMoves(r[k - 1], g, r[k - 1 + 1]);
      OneCallNext(r[k - 1], g, r[k]);
    }
  }

  // ------------------------------------------------------------------ who can move

  ghost predicate CanMove<T(!new)>(s: Mp<T>, p: nat) {
    exists s2 :: s2 != s && Produces(s, p, Miss, s2)
  }

  lemma EnabledMoves<T(!new)>(s: Mp<T>, p: nat)
    requires Inv(s) && p < |s.producers|
    requires var pc := s.producers[p];
             || pc.Filling? || pc.Publishing? || pc.Checking? || pc.Exchanging?
             || (pc.Signalling? && MutexFree(s.consumer)) || (pc.Waiting? && pc.hi - s.cap <= s.consumed)
    ensures CanMove(s, p)
  {
    hide Slot, Gen, SequenceOk, SlotOk;
    assert ProducerOk(s, p);
    var pc := s.producers[p];
    var s2 :=
      if pc.Waiting? then SetProducer(s, p, Filling(pc.lo, pc.hi, pc.lo))
      else if pc.Filling? && pc.at > pc.hi then SetProducer(s, p, Publishing(pc.lo, pc.hi, pc.lo))
      else if pc.Filling? then
        SetProducer(s.(ring := s.ring[Slot(pc.at, s.cap) := s.log[pc.at]]), p, Filling(pc.lo, pc.hi, pc.at + 1))
      else if pc.Publishing? && pc.at > pc.hi then SetProducer(s, p, Signalling(pc.lo, pc.hi))
      else if pc.Publishing? then Publish(s, p)
      else if pc.Checking? then
        SetProducer(s, p, if pc.seen + 1 - s.cap > s.consumed then Resting else Exchanging(pc.seen))
      else if pc.Exchanging? then SetProducer(s, p, Resting)
      else SetProducer(if s.consumer.Asleep? then s.(consumer := Asleep(true)) else s, p, Resting);
    assert s2.producers[p] != pc;
    assert Produces(s, p, Miss, s2);
  }

  ghost predicate ConsumerCanMove<T(!new)>(s: Mp<T>) {
    exists s2 :: s2 != s && ConsumerStep(s, s2)
  }

  /** Unless it sleeps without a signal, the consumer goes on: it reads what is published, else waits again. */
  lemma ConsumerMoves<T(!new)>(s: Mp<T>)
    requires Inv(s) && s.consumer != Asleep(false)
    ensures ConsumerCanMove(s)
  {
    hide Slot, Gen, ProducerOk, SlotOk, SequenceOk;
    var q := s.consumed + 1;
    var reading := s.(consumer := Reading(q, q));
    var s2 :=
      match s.consumer
      case Pulling => if q > s.cached then s.(consumer := Glancing) else reading
      case Glancing => s.(consumer := if s.claimed >= q then Scanning(q, s.claimed) else Locking)
      case Locking => s.(consumer := Holding)
      case Holding => s.(consumer := if s.claimed >= q then Scanning(q, s.claimed) else Parking)
      case Parking => s.(consumer := Asleep(false))
      case Asleep(_) => s.(consumer := Locking)
      case Scanning(at, bound) =>
        if at <= bound && s.gens[Slot(at, s.cap)] == Gen(at, s.cap) then s.(consumer := Scanning(at + 1, bound))
        else if (if at > bound then bound else at - 1) < q then s.(consumer := Glancing)
        else reading
      case Reading(at, hi) =>
        if at > hi then s.(consumed := hi, consumer := Pulling)
        else s.(pulled := s.pulled + [s.ring[Slot(at, s.cap)]], consumer := Reading(at + 1, hi));
    assert s2.consumer != s.consumer;
    assert ConsumerStep(s, s2);
  }

  lemma ConsumerGoesOn<T(!new)>(r: seq<Mp<T>>, k: nat)
    requires Run(r) && k < |r| && r[k].consumer != Asleep(false)
    ensures ConsumerCanMove(r[k])
  {
    Invariant(r, k);
    ConsumerMoves(r[k]);
  }

  /** A consumer that holds the mutex lets go of it. */
  lemma HolderMoves<T(!new)>(s: Mp<T>)
    requires !MutexFree(s.consumer)
    ensures ConsumerCanMove(s)
  {
    var s2 := if s.consumer.Parking? then s.(consumer := Asleep(false))
              else s.(consumer := if s.claimed >= s.consumed + 1 then Scanning(s.consumed + 1, s.claimed) else Parking);
    assert s2.consumer != s.consumer;
    assert ConsumerStep(s, s2);
  }

  // ------------------------------------------------------------------ progress

  /** Producer `w` waits for room that sequence `q`, unpublished with a producer of the same
      thread, takes up. */
  ghost predicate Blocks<T>(s: Mp<T>, g: seq<nat>, w: nat, p: nat, q: int) {
    && w < |s.producers| == |g| && p < |g| && g[w] == g[p]
    && s.producers[w].Waiting? && Pending(s.producers[p], q) && s.producers[w].hi - q >= s.cap
  }

  ghost predicate BlocksNext<T>(s: Mp<T>, g: seq<nat>, w: nat, p: nat) {
    Blocks(s, g, w, p, s.consumed + 1)
  }

  /** No thread blocks itself at the next sequence to be consumed. It may further ahead. */
  ghost predicate NextUnblocked<T>(s: Mp<T>, g: seq<nat>) {
    forall w: nat, p: nat :: !BlocksNext(s, g, w, p)
  }

  /** A producer of thread `h` can take a step that its thread may take. */
  ghost predicate ThreadCanMove<T(!new)>(s: Mp<T>, g: seq<nat>, h: nat) {
    exists p: nat :: Allowed(s, g, p) && g[p] == h && CanMove(s, p)
  }

  /** The thread that has yet to publish the next sequence can move, or the consumer that keeps
      the mutex from it. */
  lemma OwnerMoves<T(!new)>(s: Mp<T>, g: seq<nat>, p: nat)
    requires Inv(s) && OneCall(s, g) && NextUnblocked(s, g)
    requires p < |s.producers| && Pending(s.producers[p], s.consumed + 1)
    ensures ThreadCanMove(s, g, g[p]) || (!MutexFree(s.consumer) && ConsumerCanMove(s))
  {
    hide Inv, CanMove, ConsumerCanMove;
    if Allowed(s, g, p) {
      assert !BlocksNext(s, g, p, p);
      EnabledMoves(s, p);
    } else {
      var w :| 0 <= w < |g| && w != p && g[w] == g[p] && InCall(s.producers[w]);
      assert Allowed(s, g, w) && !BlocksNext(s, g, w, p);
      if s.producers[w].Signalling? && !MutexFree(s.consumer) {
        HolderMoves(s);
      } else {
        EnabledMoves(s, w);
      }
    }
  }

  /** Somebody the next sequence depends on can move: the consumer if it is published, else the
      thread that claimed it, or the consumer that holds the mutex that thread needs. */
  ghost predicate MovesOn<T(!new)>(s: Mp<T>, g: seq<nat>)
    requires -1 <= s.consumed && s.consumed + 1 < |s.owner| && s.owner[s.consumed + 1] < |g|
  {
    || (s.consumed + 1 in s.published && s.consumer != Asleep(false) && ConsumerCanMove(s))
    || (!MutexFree(s.consumer) && ConsumerCanMove(s))
    || ThreadCanMove(s, g, g[s.owner[s.consumed + 1]])
  }

  lemma StateProgress<T(!new)>(s: Mp<T>, g: seq<nat>)
    requires Inv(s) && OneCall(s, g) && NextUnblocked(s, g) && s.claimed > s.consumed
    ensures s.owner[s.consumed + 1] < |g| && MovesOn(s, g)
  {
    hide Slot, Gen, SlotOk, CanMove, ConsumerCanMove;
    var q := s.consumed + 1;
    assert SequenceOk(s, q);
    var p := s.owner[q];
    if q !in s.published {
      OwnerMoves(s, g, p);
    } else if s.consumer == Asleep(false) {
      assert ProducerOk(s, p);
      assert !Pending(s.producers[p], q);
      assert InCall(s.producers[p]) && Allowed(s, g, p);
      EnabledMoves(s, p);
    } else {
      ConsumerMoves(s);
    }
  }

  /** Deadlock freedom: while a claim is unconsumed and no thread blocks itself at the next
      sequence, the disruptor moves on. */
  lemma Progress<T(!new)>(r: seq<Mp<T>>, g: seq<nat>, k: nat)
    requires ThreadRun(r, g) && k < |r| && NextUnblocked(r[k], g) && r[k].claimed > r[k].consumed
    ensures -1 <= r[k].consumed && r[k].consumed + 1 < |r[k].owner| && r[k].owner[r[k].consumed + 1] < |g|
    ensures MovesOn(r[k], g)
  {
    ThreadRunIsRun(r, g);
    Invariant(r, k);
    OneCallThroughout(r, g, k);
    StateProgress(r[k], g);
    hide ThreadRun, Run, ProducerOk, SequenceOk, SlotOk, NextUnblocked, OneCall;
  }

  // ------------------------------------------------------------------ self-blocking

  /** From `s` to `s2` producer `w` has not got past its wait, nor `p` to publishing `q`. */
  ghost predicate StillBlocked<T>(s: Mp<T>, s2: Mp<T>, g: seq<nat>, w: nat, p: nat, q: int) {
    && Blocks(s, g, w, p, q) && Blocks(s2, g, w, p, q)
    && s2.producers[w] == s.producers[w] && s2.producers[p] == s.producers[p] && q !in s2.published && s2.consumed < q
  }

  lemma BlockedNow<T>(s: Mp<T>, g: seq<nat>, w: nat, p: nat, q: int)
    requires Inv(s) && Blocks(s, g, w, p, q)
    ensures StillBlocked(s, s, g, w, p, q)
  {
    hide Slot, Gen, SlotOk;
    assert ProducerOk(s, p) && SequenceOk(s, q);
  }

  lemma BlockedStep<T(!new)>(s: Mp<T>, g: seq<nat>, w: nat, p: nat, q: int, s2: Mp<T>)
    requires Inv(s) && Inv(s2) && Blocks(s, g, w, p, q) && OneCall(s, g) && ThreadMoves(s, g, s2)
    ensures StillBlocked(s, s2, g, w, p, q)
  {
    BlockedNow(s, g, w, p, q);
    hide Inv, Slot, Gen;
    if ConsumerStep(s, s2) {
      ConsumerAlone(s, s2);
    } else {
      var o: nat, a: Choice<T> :| Allowed(s, g, o) && Produces(s, o, a, s2);
      ProducerAlone(s, o, a, s2);
    }
    BlockedNow(s2, g, w, p, q);
  }

  lemma BlockedLonger<T>(s: Mp<T>, s1: Mp<T>, s2: Mp<T>, g: seq<nat>, w: nat, p: nat, q: int)
    requires StillBlocked(s, s1, g, w, p, q)
    ensures Blocks(s1, g, w, p, q) && (StillBlocked(s1, s2, g, w, p, q) ==> StillBlocked(s, s2, g, w, p, q))
  {
  }

  lemma RunStep<T(!new)>(r: seq<Mp<T>>, g: seq<nat>, k: nat)
    requires ThreadRun(r, g) && k + 1 < |r|
    ensures ThreadMoves(r[k], g, r[k + 1])
  {
  }

  /** A thread that waits for room its own unpublished claims take up waits forever: in every
      later state it is still in that wait and the claim is still unpublished. */
  lemma {:induction false} BlockedForever<T(!new)>(r: seq<Mp<T>>, g: seq<nat>, j: nat, k: nat, w: nat, p: nat, q: int)
    requires ThreadRun(r, g) && j <= k < |r| && Blocks(r[j], g, w, p, q)
    ensures StillBlocked(r[j], r[k], g, w, p, q)
    decreases k - j
  {
    hide *;
    ThreadRunIsRun(r, g);
    Invariant(r, k);
    if j == k {
      BlockedNow(r[k], g, w, p, q);
    } else {
      BlockedForever(r, g, j, k - 1, w, p, q);
      BlockedLonger(r[j], r[k - 1], r[k], g, w, p, q);
      Invariant(r, k - 1);
      OneCallThroughout(r, g, k - 1);
      RunStep(r, g, k - 1);
      BlockedStep(r[k - 1], g, w, p, q, r[k]);
    }
  }
}
