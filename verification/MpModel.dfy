/**
 The multi-producer disruptor as a transition system: any number of producers, one consumer,
 and the blocking wait strategy. A producer holds one claim at a time; a thread that holds
 several is several producers. A step reads or writes one shared location.
 Sequence numbers are unbounded; only the slot generations are truncated.
 */
module MpModel {
  import opened Generation

  /** A producer: idle, waiting for capacity with the claim [lo, hi], writing or publishing
      the slots from `at` on, about to signal, or between the loads of try_next. */
  datatype Producer =
    | Resting
    | Waiting(lo: int, hi: int)
    | Filling(lo: int, hi: int, at: int)
    | Publishing(lo: int, hi: int, at: int)
    | Signalling(lo: int, hi: int)
    | Checking(seen: int)
    | Exchanging(seen: int)

  /** The consumer: idle, reading the claim cursor (without and then with the mutex), parking,
      asleep, scanning the generations up to `bound`, or reading the slots up to `hi`. */
  datatype Consumer =
    | Pulling
    | Glancing
    | Locking
    | Holding
    | Parking
    | Asleep(notified: bool)
    | Scanning(at: int, bound: int)
    | Reading(at: int, hi: int)

  /** The shared cursors, generations and ring, followed by three histories: `log` holds the
      value of every claimed sequence, `owner` its claimer, `published` the sequences whose
      generation was stored. `pulled` is what the consumer has taken. */
  datatype Mp<T> = Mp(
    cap: nat, claimed: int, consumed: int, gens: seq<int>, ring: seq<T>, cached: int,
    producers: seq<Producer>, consumer: Consumer,
    log: seq<T>, owner: seq<nat>, published: set<int>, pulled: seq<T>)

  predicate MutexFree(c: Consumer) {
    !c.Holding? && !c.Parking?
  }

  ghost function SetProducer<T>(s: Mp<T>, p: nat, pc: Producer): Mp<T>
    requires p < |s.producers|
  {
    s.(producers := s.producers[p := pc])
  }

  /** fetch_add, or the successful exchange of try_next: the claim of `|vs|` sequences. */
  ghost function Claim<T>(s: Mp<T>, p: nat, vs: seq<T>): Mp<T> {
    s.(claimed := s.claimed + |vs|, log := s.log + vs, owner := s.owner + seq(|vs|, _ => p))
  }

  /** What a producer chooses: the values of its next claim, a non-blocking claim, or nothing. */
  datatype Choice<T> = Begin(vs: seq<T>) | Try | Go(v: T) | Miss

  ghost predicate ProducerStep<T>(s: Mp<T>, p: nat, a: Choice<T>, s2: Mp<T>)
    requires p < |s.producers|
  {
    match s.producers[p]
    case Resting =>
      if a.Begin? then s2 == SetProducer(Claim(s, p, a.vs), p, Waiting(s.claimed + 1, s.claimed + |a.vs|))
      else a.Try? && s2 == SetProducer(s, p, Checking(s.claimed))
    case Waiting(lo, hi) =>
      s2 == if hi - s.cap > s.consumed then s else SetProducer(s, p, Filling(lo, hi, lo))
    case Filling(lo, hi, at) =>
      if at > hi then s2 == SetProducer(s, p, Publishing(lo, hi, lo))
      else
        && s.cap > 0 && Slot(at, s.cap) < |s.ring| && 0 <= at < |s.log|
        && s2 == SetProducer(s.(ring := s.ring[Slot(at, s.cap) := s.log[at]]), p, Filling(lo, hi, at + 1))
    case Publishing(lo, hi, at) =>
      if at > hi then s2 == SetProducer(s, p, Signalling(lo, hi))
      else
        && s.cap > 0 && Slot(at, s.cap) < |s.gens|
        && s2 == SetProducer(
                   s.(gens := s.gens[Slot(at, s.cap) := Gen(at, s.cap)], published := s.published + {at}),
                   p, Publishing(lo, hi, at + 1))
    case Signalling(lo, hi) =>
      && MutexFree(s.consumer)
      && s2 == SetProducer(if s.consumer.Asleep? then s.(consumer := Asleep(true)) else s, p, Resting)
    case Checking(seen) =>
      s2 == SetProducer(s, p, if seen + 1 - s.cap > s.consumed then Resting else Exchanging(seen))
    case Exchanging(seen) =>
      if a.Go? && s.claimed == seen then s2 == SetProducer(Claim(s, p, [a.v]), p, Filling(seen + 1, seen + 1, seen + 1))
      else s2 == SetProducer(s, p, Resting)
  }

  /** After a wait: a frontier short of the next sequence waits again; otherwise the consumer
      reads up to some `hi` within it, remembering the frontier (pull) or not (manual reads). */
  ghost predicate AfterScan<T>(s: Mp<T>, frontier: int, s2: Mp<T>) {
    if frontier < s.consumed + 1 then s2 == s.(consumer := Glancing)
    else
      && s2.consumer.Reading? && s2.consumer.at == s.consumed + 1 <= s2.consumer.hi <= frontier
      && (s2.cached == frontier || s2.cached == s.cached)
      && s2 == s.(consumer := s2.consumer, cached := s2.cached)
  }

  ghost predicate ConsumerStep<T>(s: Mp<T>, s2: Mp<T>) {
    match s.consumer
    case Pulling =>
      if s.consumed + 1 > s.cached then s2 == s.(consumer := Glancing)
      else
        && s2.consumer.Reading? && s2.consumer.at == s.consumed + 1 <= s2.consumer.hi <= s.cached
        && s2 == s.(consumer := s2.consumer)
    case Glancing =>
      if s.claimed >= s.consumed + 1 then s2 == s.(consumer := Scanning(s.consumed + 1, s.claimed))
      else s2 == s || s2 == s.(consumer := Locking)
    case Locking => s2 == s.(consumer := Holding)
    case Holding =>
      if s.claimed >= s.consumed + 1 then s2 == s.(consumer := Scanning(s.consumed + 1, s.claimed))
      else s2 == s.(consumer := Parking)
    case Parking => s2 == s.(consumer := Asleep(false))
    case Asleep(_) => s2 == s.(consumer := Locking)
    case Scanning(at, bound) =>
      if at > bound then AfterScan(s, bound, s2)
      else
        && s.cap > 0 && Slot(at, s.cap) < |s.gens|
        && if s.gens[Slot(at, s.cap)] != Gen(at, s.cap) then AfterScan(s, at - 1, s2)
           else s2 == s.(consumer := Scanning(at + 1, bound))
    case Reading(at, hi) =>
      if at > hi then s2 == s.(consumed := hi, consumer := Pulling)
      else
        && s.cap > 0 && Slot(at, s.cap) < |s.ring|
        && s2 == s.(pulled := s.pulled + [s.ring[Slot(at, s.cap)]], consumer := Reading(at + 1, hi))
  }

  ghost predicate Moves<T(!new)>(s: Mp<T>, s2: Mp<T>) {
    || ConsumerStep(s, s2)
    || exists p: nat, a: Choice<T> {:trigger Produces(s, p, a, s2)} :: Produces(s, p, a, s2)
  }

  ghost predicate Produces<T>(s: Mp<T>, p: nat, a: Choice<T>, s2: Mp<T>) {
    p < |s.producers| && ProducerStep(s, p, a, s2)
  }

  ghost predicate Init<T>(s: Mp<T>) {
    && s.cap > 0 && s.claimed == s.consumed == s.cached == -1
    && |s.gens| == |s.ring| == s.cap && (forall i :: 0 <= i < s.cap ==> s.gens[i] == -1)
    && (forall p :: 0 <= p < |s.producers| ==> s.producers[p] == Resting)
    && s.consumer == Pulling && s.log == s.pulled == [] && s.owner == [] && s.published == {}
  }

  ghost predicate Run<T(!new)>(r: seq<Mp<T>>) {
    && r != [] && Init(r[0])
    && forall k :: 0 <= k < |r| - 1 ==> Moves(r[k], r[k + 1])
  }
}
