/**
 The single-producer disruptor: one producer thread, one consumer thread, the cached
 capacity limit with its wrapping unsigned arithmetic, and the blocking wait strategy.
 Claims (single, batched or tentative), writes and in-order publications mix freely.
 */
module SpDisruptor {
  import opened Basics
  import opened Generation
  import Fifo

  const INT64_MAX := 0x7FFF_FFFF_FFFF_FFFF

  // ------------------------------------------------------------------ the capacity limit

  /** The conversion of a 64-bit signed integer to unsigned. */
  function ToUint64(x: int): int {
    x % TWO_64
  }

  /** The limit as computed: an unsigned sum that wraps, then saturates. */
  function CapacityLimit(consumed: int, cap: nat): int {
    var limit := (ToUint64(consumed) + cap) % TWO_64;
    if limit < INT64_MAX then limit else INT64_MAX
  }

  function Min(a: int, b: int): int {
    if a < b then a else b
  }

  /** The wrapping computation is exact, including the initial position -1. */
  lemma CapacityLimitExact(consumed: int, cap: nat)
    requires -1 <= consumed <= INT64_MAX && 1 <= cap <= INT64_MAX
    ensures CapacityLimit(consumed, cap) == Min(consumed + cap, INT64_MAX)
  {
    if consumed == -1 {
      assert ToUint64(-1) == TWO_64 - 1;
      assert (TWO_64 - 1 + cap) % TWO_64 == cap - 1;
    } else {
      assert ToUint64(consumed) == consumed;
      assert consumed + cap < TWO_64;
    }
  }

  // ------------------------------------------------------------------ the state machine

  datatype Producer = Free | Signalling

  datatype Consumer =
    | Pulling
    | Glancing
    | Locking
    | Holding
    | Parking
    | Asleep(notified: bool)
    | Reading(at: int, hi: int)

  /** The four sequences and the ring; then the histories: the value of every claimed
      sequence, the sequences written since, and what the consumer has taken. */
  datatype Sp<T> = Sp(
    cap: nat, published: int, consumed: int, claimed: int, limit: int, ring: seq<T>, cached: int,
    producer: Producer, consumer: Consumer, log: seq<T>, written: set<int>, pulled: seq<T>)

  datatype Choice<T> = Next(vs: seq<T>) | TryNext(v: T) | Write(at: int) | Publish(hi: int)

  ghost function Claim<T>(s: Sp<T>, vs: seq<T>): Sp<T> {
    s.(claimed := s.claimed + |vs|, log := s.log + vs)
  }

  /** next and next_batch: below the cached limit, or after a fresh look at the consumer; a
      claim without room leaves the producer in its wait loop. */
  ghost predicate NextStep<T>(s: Sp<T>, vs: seq<T>, s2: Sp<T>) {
    var last := s.claimed + |vs|;
    && last <= INT64_MAX
    && s2 == if last <= s.limit then Claim(s, vs)
             else if last - s.cap > s.consumed then s
             else Claim(s, vs).(limit := CapacityLimit(s.consumed, s.cap))
  }

  ghost predicate ProducerStep<T>(s: Sp<T>, a: Choice<T>, s2: Sp<T>) {
    match s.producer
    case Free =>
      (match a
       case Next(vs) => NextStep(s, vs, s2)
       case TryNext(v) =>
         s.claimed < INT64_MAX && s2 == if s.claimed + 1 - s.cap > s.consumed then s else Claim(s, [v])
       case Write(at) =>
         && s.published < at <= s.claimed && 0 <= at < |s.log| && s.cap > 0 && Slot(at, s.cap) < |s.ring|
         && s2 == s.(ring := s.ring[Slot(at, s.cap) := s.log[at]], written := s.written + {at})
       case Publish(hi) =>
         && s.published < hi <= s.claimed && (forall q :: s.published < q <= hi ==> q in s.written)
         && s2 == s.(published := hi, producer := Signalling))
    case Signalling =>
      && !s.consumer.Holding? && !s.consumer.Parking?
      && s2 == (if s.consumer.Asleep? then s.(consumer := Asleep(true)) else s).(producer := Free)
  }

  /** The consumer reads up to some `hi` within the frontier, remembering it or not. */
  ghost predicate Reads<T>(s: Sp<T>, frontier: int, s2: Sp<T>) {
    && s2.consumer.Reading? && s2.consumer.at == s.consumed + 1 <= s2.consumer.hi <= frontier
    && (s2.cached == frontier || s2.cached == s.cached)
    && s2 == s.(consumer := s2.consumer, cached := s2.cached)
  }

  ghost predicate ConsumerStep<T>(s: Sp<T>, s2: Sp<T>) {
    match s.consumer
    case Pulling => if s.consumed + 1 > s.cached then s2 == s.(consumer := Glancing) else Reads(s, s.cached, s2)
    case Glancing =>
      if s.published >= s.consumed + 1 then Reads(s, s.published, s2)
      else s2 == s || s2 == s.(consumer := Locking)
    case Locking => s2 == s.(consumer := Holding)
    case Holding =>
      if s.published >= s.consumed + 1 then Reads(s, s.published, s2) else s2 == s.(consumer := Parking)
    case Parking => s2 == s.(consumer := Asleep(false))
    case Asleep(_) => s2 == s.(consumer := Locking)
    case Reading(at, hi) =>
      if at > hi then s2 == s.(consumed := hi, consumer := Pulling)
      else
        && s.cap > 0 && Slot(at, s.cap) < |s.ring|
        && s2 == s.(pulled := s.pulled + [s.ring[Slot(at, s.cap)]], consumer := Reading(at + 1, hi))
  }

  ghost predicate Moves<T(!new)>(s: Sp<T>, s2: Sp<T>) {
    ConsumerStep(s, s2) || exists a: Choice<T> {:trigger ProducerStep(s, a, s2)} :: ProducerStep(s, a, s2)
  }

  ghost predicate Init<T>(s: Sp<T>) {
    && 1 <= s.cap <= INT64_MAX && |s.ring| == s.cap
    && s.published == s.consumed == s.claimed == s.cached == -1 && s.limit == s.cap - 1
    && s.producer == Free && s.consumer == Pulling && s.log == s.pulled == [] && s.written == {}
  }

  ghost predicate Run<T(!new)>(r: seq<Sp<T>>) {
    && r != [] && Init(r[0])
    && forall k :: 0 <= k < |r| - 1 ==> Moves(r[k], r[k + 1])
  }

  // ------------------------------------------------------------------ the invariant

  ghost predicate Positions<T>(s: Sp<T>) {
    && 1 <= s.cap <= INT64_MAX && |s.ring| == s.cap && |s.log| == s.claimed + 1
    && -1 <= s.consumed <= s.published <= s.claimed <= s.consumed + s.cap && s.claimed <= INT64_MAX
    && s.limit <= s.consumed + s.cap && s.limit <= INT64_MAX
    && -1 <= s.cached <= s.published
  }

  ghost predicate Contents<T>(s: Sp<T>)
    requires Positions(s)
  {
    && (forall q :: s.consumed < q <= s.published ==> q in s.written)
    && (forall q :: q in s.written ==> q <= s.claimed)
    && (forall q :: q in s.written && s.consumed < q ==> s.ring[Slot(q, s.cap)] == s.log[q])
  }

  ghost predicate Taken<T>(s: Sp<T>)
    requires Positions(s)
  {
    && |s.pulled| <= |s.log| && s.pulled == s.log[..|s.pulled|]
    && if s.consumer.Reading?
       then |s.pulled| == s.consumer.at && s.consumed + 1 <= s.consumer.at <= s.consumer.hi + 1
            && s.consumed < s.consumer.hi <= s.published
       else |s.pulled| == s.consumed + 1
  }

  /** A parked consumer whose target is published has a signal coming. */
  ghost predicate SignalOwed<T>(s: Sp<T>) {
    (s.consumer.Parking? || s.consumer == Asleep(false)) && s.published >= s.consumed + 1 ==> s.producer == Signalling
  }

  ghost predicate Inv<T>(s: Sp<T>) {
    Positions(s) && Contents(s) && Taken(s) && SignalOwed(s)
  }

  lemma ClaimKeeps<T>(s: Sp<T>, vs: seq<T>, limit: int)
    requires Inv(s) && s.claimed + |vs| <= INT64_MAX && s.claimed + |vs| <= s.consumed + s.cap
    requires limit <= s.consumed + s.cap && limit <= INT64_MAX
    ensures Inv(Claim(s, vs).(limit := limit))
  {
    hide Slot;
    var s2 := Claim(s, vs).(limit := limit);
    assert forall q :: 0 <= q < |s.log| ==> s2.log[q] == s.log[q];
    assert s2.log[..|s.pulled|] == s.log[..|s.pulled|];
  }

  lemma WriteKeeps<T>(s: Sp<T>, at: int, s2: Sp<T>)
    requires Inv(s) && s.published < at <= s.claimed
    requires s2 == s.(ring := s.ring[Slot(at, s.cap) := s.log[at]], written := s.written + {at})
    ensures Inv(s2)
  {
    forall q | q in s2.written && s.consumed < q ensures s2.ring[Slot(q, s.cap)] == s2.log[q] {
      if q != at && Slot(q, s.cap) == Slot(at, s.cap) {
        SameSlot(q, at, s.cap);
        SameSlot(at, q, s.cap);
      }
    }
  }

  lemma ProducerKeeps<T>(s: Sp<T>, a: Choice<T>, s2: Sp<T>)
    requires Inv(s) && ProducerStep(s, a, s2)
    ensures Inv(s2)
  {
    hide Slot, CapacityLimit;
    if s.producer == Free {
      match a
      case Next(vs) =>
        CapacityLimitExact(s.consumed, s.cap);
        if s.claimed + |vs| <= s.limit {
          ClaimKeeps(s, vs, s.limit);
        } else if s.claimed + |vs| - s.cap <= s.consumed {
          ClaimKeeps(s, vs, CapacityLimit(s.consumed, s.cap));
        }
      case TryNext(v) =>
        if s.claimed + 1 - s.cap <= s.consumed {
          ClaimKeeps(s, [v], s.limit);
        }
      case Write(at) => WriteKeeps(s, at, s2);
      case Publish(hi) =>
    }
  }

  lemma ConsumerKeeps<T>(s: Sp<T>, s2: Sp<T>)
    requires Inv(s) && ConsumerStep(s, s2)
    ensures Inv(s2)
    ensures s2.pulled != s.pulled ==> s2.pulled == s.pulled + [s.log[|s.pulled|]] && |s.pulled| <= s.published
    ensures s2.log == s.log && s2.published == s.published
  {
    hide Slot;
    if s.consumer.Reading? {
      ReaderKeeps(s, s2);
    }
  }

  lemma ReaderKeeps<T>(s: Sp<T>, s2: Sp<T>)
    requires Inv(s) && ConsumerStep(s, s2) && s.consumer.Reading?
    ensures Inv(s2)
    ensures s2.pulled != s.pulled ==> s2.pulled == s.pulled + [s.log[|s.pulled|]] && |s.pulled| <= s.published
    ensures s2.log == s.log && s2.published == s.published
  {
    hide Slot;
    var at := s.consumer.at;
    if at <= s.consumer.hi {
      assert s.ring[Slot(at, s.cap)] == s.log[at];
      assert s.pulled + [s.log[at]] == s.log[..at + 1];
    }
  }

  // ------------------------------------------------------------------ refinement

  /** The queue a state stands for: the published values not yet taken. */
  ghost function Abs<T>(s: Sp<T>): Fifo.Fifo<T>
    requires Positions(s) && Taken(s)
  {
    Fifo.Fifo(s.log[|s.pulled| .. s.published + 1], s.pulled)
  }

  lemma ConsumerRefines<T(!new)>(s: Sp<T>, s2: Sp<T>)
    requires Inv(s) && ConsumerStep(s, s2)
    ensures Inv(s2) && Fifo.Next(Abs(s), Abs(s2))
  {
    hide Slot;
    ConsumerKeeps(s, s2);
    hide ConsumerStep, Contents;
    var n := |s.pulled|;
    if s2.pulled != s.pulled {
      assert s.log[n .. s.published + 1][1..] == s.log[n + 1 .. s.published + 1];
      assert Abs(s2) == Fifo.Fifo(Abs(s).queue[1..], Abs(s).out + [Abs(s).queue[0]]);
    }
  }

  lemma ProducerGrows<T>(s: Sp<T>, a: Choice<T>, s2: Sp<T>)
    requires ProducerStep(s, a, s2)
    ensures s2.pulled == s.pulled && s.log <= s2.log && s.published <= s2.published
  {
    hide Slot, CapacityLimit;
  }

  lemma ProducerRefines<T(!new)>(s: Sp<T>, a: Choice<T>, s2: Sp<T>)
    requires Inv(s) && ProducerStep(s, a, s2)
    ensures Inv(s2) && Fifo.Next(Abs(s), Abs(s2))
  {
    hide Slot, ProducerStep, Contents;
    ProducerKeeps(s, a, s2);
    ProducerGrows(s, a, s2);
    var n := |s.pulled|;
    assert s.log[n .. s.published + 1] <= s2.log[n .. s2.published + 1];
  }

  lemma StepRefines<T(!new)>(s: Sp<T>, s2: Sp<T>)
    requires Inv(s) && Moves(s, s2)
    ensures Inv(s2) && Fifo.Next(Abs(s), Abs(s2))
  {
    hide ConsumerStep, ProducerStep, Abs, Fifo.Next;
    if ConsumerStep(s, s2) {
      ConsumerRefines(s, s2);
    } else {
      var a: Choice<T> :| ProducerStep(s, a, s2);
      ProducerRefines(s, a, s2);
    }
  }

  lemma {:induction false} Invariant<T(!new)>(r: seq<Sp<T>>, k: nat)
    requires Run(r) && k < |r|
    ensures Inv(r[k])
  {
    if k > 0 {
      Invariant(r, k - 1);
      hide Inv;
      assert Moves(r[k - 1], r[k - 1 + 1]);
      StepRefines(r[k - 1], r[k]);
    }
  }

  /** What was taken and what may be taken are together a prefix of the claimed values. */
  lemma AbsIsLog<T>(s: Sp<T>)
    requires Positions(s) && Taken(s)
    ensures Abs(s).out + Abs(s).queue <= s.log
  {
    assert s.log[..|s.pulled|] + s.log[|s.pulled| .. s.published + 1] == s.log[..s.published + 1];
  }

  /** Every run of the single-producer disruptor is a run of the same queue. */
  lemma RefinesFifo<T(!new)>(r: seq<Sp<T>>, k: nat)
    requires Run(r) && k < |r|
    ensures Inv(r[k]) && Abs(r[k]).out + Abs(r[k]).queue <= r[k].log
    ensures k == 0 ==> Abs(r[k]) == Fifo.Fifo([], [])
    ensures k + 1 < |r| ==> Inv(r[k + 1]) && Fifo.Next(Abs(r[k]), Abs(r[k + 1]))
  {
    Invariant(r, k);
    AbsIsLog(r[k]);
    if k + 1 < |r| {
      hide Inv, Abs;
      StepRefines(r[k], r[k + 1]);
    }
  }

  /** No claim outruns the ring, and the cached limit never promises more than there is. */
  lemma ClaimsFit<T(!new)>(r: seq<Sp<T>>, k: nat)
    requires Run(r) && k < |r|
    ensures r[k].consumed <= r[k].published <= r[k].claimed <= r[k].consumed + r[k].cap
    ensures r[k].limit <= r[k].consumed + r[k].cap && r[k].cached <= r[k].published
  {
    Invariant(r, k);
  }

  /** No slot is overwritten before its occupant is consumed. */
  lemma UnconsumedIntact<T(!new)>(r: seq<Sp<T>>, k: nat, q: int)
    requires Run(r) && k < |r| && r[k].consumed < q <= r[k].published
    ensures r[k].cap > 0 && |r[k].ring| == r[k].cap && 0 <= q < |r[k].log|
    ensures r[k].ring[Slot(q, r[k].cap)] == r[k].log[q]
  {
    Invariant(r, k);
    hide Run, Slot;
  }

  /** A consumer parked by the blocking strategy although its target is published has a signal coming. */
  lemma ParkedHasSignal<T(!new)>(r: seq<Sp<T>>, k: nat)
    requires Run(r) && k < |r| && (r[k].consumer.Parking? || r[k].consumer == Asleep(false))
    requires r[k].published > r[k].consumed
    ensures r[k].producer == Signalling
  {
    Invariant(r, k);
  }

  // ------------------------------------------------------------------ what each call does

  /** try_next claims one sequence exactly if fewer than the capacity are claimed and unconsumed,
      and otherwise changes nothing. */
  lemma TryNextExact<T(!new)>(r: seq<Sp<T>>, k: nat, v: T)
    requires Run(r) && k + 1 < |r| && r[k].producer == Free && ProducerStep(r[k], TryNext(v), r[k + 1])
    ensures r[k + 1] == if r[k].claimed - r[k].consumed < r[k].cap
                        then r[k].(claimed := r[k].claimed + 1, log := r[k].log + [v]) else r[k]
  {
  }

  /** next and next_batch claim all their sequences exactly if these and the unconsumed ones
      together fit the ring, whatever the cached limit, and otherwise go on waiting. */
  lemma NextExact<T(!new)>(r: seq<Sp<T>>, k: nat, vs: seq<T>)
    requires Run(r) && k + 1 < |r| && r[k].producer == Free && ProducerStep(r[k], Next(vs), r[k + 1])
    ensures if r[k].claimed + |vs| - r[k].consumed <= r[k].cap
            then r[k + 1] == r[k].(claimed := r[k].claimed + |vs|, log := r[k].log + vs, limit := r[k + 1].limit)
            else r[k + 1] == r[k]
    ensures r[k + 1].limit == r[k].limit || r[k + 1].limit == Min(r[k].consumed + r[k].cap, INT64_MAX)
  {
    Invariant(r, k);
    hide Run, CapacityLimit, Contents, Taken;
    CapacityLimitExact(r[k].consumed, r[k].cap);
  }

  /** What enters the queue: publication of `hi` lets through every claimed value up to it, and
      nothing else adds to the queue. */
  lemma PublishExact<T(!new)>(r: seq<Sp<T>>, k: nat, a: Choice<T>)
    requires Run(r) && k + 1 < |r| && ProducerStep(r[k], a, r[k + 1])
    ensures Inv(r[k]) && Inv(r[k + 1]) && Abs(r[k + 1]).out == Abs(r[k]).out
    ensures if r[k].producer == Free && a.Publish?
            then a.hi < |r[k].log| && r[k].published < a.hi
                 && Abs(r[k + 1]).queue == Abs(r[k]).queue + r[k].log[r[k].published + 1 .. a.hi + 1]
            else Abs(r[k + 1]).queue == Abs(r[k]).queue
  {
    Invariant(r, k);
    Invariant(r, k + 1);
    hide Run, ProducerStep, Contents, SignalOwed, Positions, Taken, Abs;
    PublishQueue(r[k], a, r[k + 1]);
  }

  lemma PublishQueue<T>(s: Sp<T>, a: Choice<T>, s2: Sp<T>)
    requires ProducerStep(s, a, s2) && Positions(s) && Taken(s) && Positions(s2) && Taken(s2)
    ensures Abs(s2).out == Abs(s).out
    ensures if s.producer == Free && a.Publish?
            then a.hi < |s.log| && s.published < a.hi
                 && Abs(s2).queue == Abs(s).queue + s.log[s.published + 1 .. a.hi + 1]
            else Abs(s2).queue == Abs(s).queue
  {
    var n := |s.pulled|;
    ProducerGrows(s, a, s2);
    PublishMoves(s, a, s2);
    hide ProducerStep;
    if s.producer == Free && a.Publish? {
      Cut(s.log, n, s.published + 1, a.hi + 1);
    } else {
      SamePart(s.log, s2.log, n, s.published + 1);
    }
  }

  lemma Cut<T>(log: seq<T>, n: nat, m: nat, h: nat)
    requires n <= m <= h <= |log|
    ensures log[n..h] == log[n..m] + log[m..h]
  {
  }

  lemma SamePart<T>(log: seq<T>, more: seq<T>, n: nat, m: nat)
    requires log <= more && n <= m <= |log|
    ensures more[n..m] == log[n..m]
  {
  }

  lemma PublishMoves<T>(s: Sp<T>, a: Choice<T>, s2: Sp<T>)
    requires ProducerStep(s, a, s2)
    ensures if s.producer == Free && a.Publish?
            then s2.published == a.hi && s.published < a.hi <= s.claimed && s2.log == s.log
            else s2.published == s.published
  {
    hide Slot, CapacityLimit;
  }

  /** The consumer can always go on, unless it sleeps without a signal; and then, if something is published
      and unconsumed, the producer can wake it. */
  lemma Progress<T(!new)>(r: seq<Sp<T>>, k: nat)
    requires Run(r) && k < |r|
    ensures r[k].consumer != Asleep(false) ==>
              exists s2: Sp<T> :: s2.consumer != r[k].consumer && ConsumerStep(r[k], s2)
    ensures r[k].consumer == Asleep(false) && r[k].published > r[k].consumed ==>
              exists a, s2: Sp<T> :: s2.consumer == Asleep(true) && ProducerStep(r[k], a, s2)
  {
    Invariant(r, k);
    hide Run, Slot, Contents;
    var s := r[k];
    if s.consumer == Asleep(false) {
      var any: Choice<T> := Write(0);
      assert s.published > s.consumed ==> ProducerStep(s, any, s.(consumer := Asleep(true), producer := Free));
    } else {
      var q := s.consumed + 1;
      var reading := s.(consumer := Reading(q, q));
      var s2 :=
        match s.consumer
        case Pulling => if q > s.cached then s.(consumer := Glancing) else reading
        case Glancing => if q > s.published then s.(consumer := Locking) else reading
        case Locking => s.(consumer := Holding)
        case Holding => if q > s.published then s.(consumer := Parking) else reading
        case Parking => s.(consumer := Asleep(false))
        case Asleep(_) => s.(consumer := Locking)
        case Reading(at, hi) =>
          if at > hi then s.(consumed := hi, consumer := Pulling)
          else s.(pulled := s.pulled + [s.ring[Slot(at, s.cap)]], consumer := Reading(at + 1, hi));
      assert s2.consumer != s.consumer && ConsumerStep(s, s2);
    }
  }

  /** A producer outside its signal can write any sequence it has claimed and not published, putting the value of
      the claim in its slot, and can publish up to one below which all are written. */
  lemma ProducerCan<T(!new)>(r: seq<Sp<T>>, k: nat, at: int)
    requires Run(r) && k < |r| && r[k].producer == Free && r[k].published < at <= r[k].claimed
    ensures exists s2: Sp<T> :: ProducerStep(r[k], Write(at), s2) && at in s2.written && Holds(s2, at)
    ensures (forall q :: r[k].published < q <= at ==> q in r[k].written) ==>
              exists s2: Sp<T> :: ProducerStep(r[k], Publish(at), s2) && s2.published == at
  {
    Invariant(r, k);
    hide Run, Contents, Taken;
    var s := r[k];
    SlotInRing(at, s.cap);
    hide Slot;
    var s2 := s.(ring := s.ring[Slot(at, s.cap) := s.log[at]], written := s.written + {at});
    assert ProducerStep(s, Write(at), s2) && Holds(s2, at);
    if forall q :: s.published < q <= at ==> q in s.written {
      assert ProducerStep(s, Publish(at), s.(published := at, producer := Signalling));
    }
  }

  /** It can call next, next_batch and try_next as long as the sequence numbers last, and then claims or waits as
      NextExact and TryNextExact say. */
  lemma ProducerMayClaim<T(!new)>(s: Sp<T>, vs: seq<T>, v: T)
    requires s.producer == Free
    ensures (exists s2: Sp<T> :: ProducerStep(s, Next(vs), s2)) <==> s.claimed + |vs| <= INT64_MAX
    ensures (exists s2: Sp<T> :: ProducerStep(s, TryNext(v), s2)) <==> s.claimed + 1 <= INT64_MAX
  {
    hide CapacityLimit;
    if s.claimed + |vs| <= INT64_MAX {
      var s2 := if s.claimed + |vs| <= s.limit then Claim(s, vs)
                else if s.claimed + |vs| - s.cap > s.consumed then s
                else Claim(s, vs).(limit := CapacityLimit(s.consumed, s.cap));
      assert ProducerStep(s, Next(vs), s2);
    }
    if s.claimed + 1 <= INT64_MAX {
      assert ProducerStep(s, TryNext(v), if s.claimed + 1 - s.cap > s.consumed then s else Claim(s, [v]));
    }
  }

  /** The slot of sequence `at` holds the value that was claimed with it. */
  ghost predicate Holds<T(!new)>(s: Sp<T>, at: int) {
    && 0 <= at < |s.log| && s.cap > 0 && Slot(at, s.cap) < |s.ring| && s.ring[Slot(at, s.cap)] == s.log[at]
  }

  lemma SlotInRing(at: int, cap: nat)
    requires cap > 0
    ensures 0 <= Slot(at, cap) < cap
  {
  }
}
