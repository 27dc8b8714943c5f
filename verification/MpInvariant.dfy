/**
 The inductive invariant of the multi-producer disruptor. Every claimed sequence is
 published or pending with its owner; the slots of the window (consumed, consumed + cap]
 hold this lap if published and the previous lap otherwise; and a parked consumer whose
 target is claimed has a signal coming.
 */
module MpInvariant {
  import opened Generation
  import opened MpModel

  /** The producer has claimed `q` and has yet to publish it. */
  predicate Pending(pc: Producer, q: int) {
    match pc
    case Waiting(lo, hi) => lo <= q <= hi
    case Filling(lo, hi, _) => lo <= q <= hi
    case Publishing(_, hi, at) => at <= q <= hi
    case _ => false
  }

  /** The producer has claimed `q` and has yet to signal. */
  predicate OwesSignal(pc: Producer, q: int) {
    (pc.Waiting? || pc.Filling? || pc.Publishing? || pc.Signalling?) && pc.lo <= q <= pc.hi
  }

  predicate InWindow<T>(s: Mp<T>, q: int) {
    s.consumed < q <= s.consumed + s.cap
  }

  /** The producer passed the capacity check for everything it will write. */
  ghost predicate Admitted<T>(s: Mp<T>, pc: Producer) {
    match pc
    case Filling(_, hi, _) => hi <= s.consumed + s.cap
    case Publishing(_, hi, _) => hi <= s.consumed + s.cap
    case Exchanging(seen) => seen + 1 <= s.consumed + s.cap
    case _ => true
  }

  /** The producer at `pc` has written the value of `q` into its slot. */
  predicate Written(pc: Producer, q: int) {
    match pc
    case Filling(lo, _, at) => lo <= q < at
    case Publishing(_, hi, at) => at <= q <= hi
    case _ => false
  }

  predicate Ranges<T>(s: Mp<T>, pc: Producer) {
    match pc
    case Waiting(lo, hi) => 0 <= lo <= hi + 1 <= s.claimed + 1
    case Filling(lo, hi, at) => 0 <= lo <= at <= hi + 1 <= s.claimed + 1
    case Publishing(lo, hi, at) => 0 <= lo <= at <= hi + 1 <= s.claimed + 1
    case Signalling(lo, hi) => 0 <= lo <= hi + 1 <= s.claimed + 1
    case _ => true
  }

  ghost predicate Shape<T>(s: Mp<T>) {
    && s.cap > 0 && |s.gens| == |s.ring| == s.cap
    && |s.log| == |s.owner| == s.claimed + 1
    && -1 <= s.consumed <= s.claimed && -1 <= s.cached <= s.claimed
  }

  ghost predicate ProducerOk<T>(s: Mp<T>, p: nat)
    requires Shape(s) && p < |s.producers|
  {
    var pc := s.producers[p];
    && Ranges(s, pc) && Admitted(s, pc)
    && (forall q :: 0 <= q <= s.claimed && OwesSignal(pc, q) ==> s.owner[q] == p)
    && (forall q :: 0 <= q <= s.claimed && Pending(pc, q) ==> q !in s.published)
    && (forall q :: 0 <= q <= s.claimed && Written(pc, q) ==> s.ring[Slot(q, s.cap)] == s.log[q])
  }

  /** What sequence `q` may assume: published up to the window, and otherwise with its owner. */
  ghost predicate SequenceOk<T>(s: Mp<T>, q: int)
    requires Shape(s)
  {
    && (q in s.published ==> 0 <= q <= s.claimed && q <= s.consumed + s.cap)
    && (0 <= q <= s.consumed || 0 <= q <= s.cached ==> q in s.published)
    && (0 <= q <= s.claimed ==>
          s.owner[q] < |s.producers| && (q !in s.published ==> Pending(s.producers[s.owner[q]], q)))
  }

  /** A slot of the window holds this lap if its sequence was published, else the one before. */
  ghost predicate SlotOk<T>(s: Mp<T>, q: int)
    requires Shape(s)
  {
    InWindow(s, q) ==>
      && s.gens[Slot(q, s.cap)] == Gen(if q in s.published then q else q - s.cap, s.cap)
      && (q in s.published && q <= s.claimed ==> s.ring[Slot(q, s.cap)] == s.log[q])
  }

  ghost predicate ConsumerOk<T>(s: Mp<T>)
    requires Shape(s)
  {
    && |s.pulled| <= |s.log| && s.pulled == s.log[..|s.pulled|]
    && match s.consumer
       case Scanning(at, bound) =>
         && |s.pulled| == s.consumed + 1 && s.consumed + 1 <= at <= bound + 1 && s.consumed + 1 <= bound <= s.claimed
         && forall q :: s.consumed < q < at ==> q in s.published
       case Reading(at, hi) =>
         && |s.pulled| == at && s.consumed + 1 <= at <= hi + 1 && s.consumed + 1 <= hi <= s.claimed
         && forall q :: s.consumed < q <= hi ==> q in s.published
       case _ => |s.pulled| == s.consumed + 1
  }

  /** The consumer decided to sleep, or sleeps and was not notified. */
  predicate Parked(c: Consumer) {
    c.Parking? || c == Asleep(false)
  }

  ghost predicate SignalOwed<T>(s: Mp<T>)
    requires Shape(s)
  {
    Parked(s.consumer) && s.claimed >= s.consumed + 1 ==>
      var q := s.consumed + 1;
      s.owner[q] < |s.producers| && OwesSignal(s.producers[s.owner[q]], q)
  }

  ghost predicate Inv<T>(s: Mp<T>) {
    && Shape(s)
    && (forall p :: 0 <= p < |s.producers| ==> ProducerOk(s, p))
    && (forall q: int :: SequenceOk(s, q))
    && (forall q: int :: SlotOk(s, q))
    && ConsumerOk(s) && SignalOwed(s)
  }

  lemma InvInit<T>(s: Mp<T>)
    requires Init(s)
    ensures Inv(s)
  {
    forall q ensures SlotOk(s, q) {
      if InWindow(s, q) {
        InitialGen(q, s.cap);
      }
    }
  }

  // ------------------------------------------------------------------ steps of a producer

  /** A step of `p` that moves its program counter only. */
  lemma Advances<T>(s: Mp<T>, p: nat, pc2: Producer)
    requires Inv(s) && p < |s.producers|
    requires Ranges(s, pc2) && Admitted(s, pc2)
    requires forall q :: 0 <= q <= s.claimed && OwesSignal(pc2, q) ==> s.owner[q] == p
    requires forall q :: Pending(s.producers[p], q) <==> Pending(pc2, q)
    requires forall q :: 0 <= q <= s.claimed && Written(pc2, q) ==> s.ring[Slot(q, s.cap)] == s.log[q]
    requires forall q :: OwesSignal(s.producers[p], q) ==> OwesSignal(pc2, q)
    ensures Inv(SetProducer(s, p, pc2))
  {
    hide Slot, Gen;
    var s2 := SetProducer(s, p, pc2);
    forall o | 0 <= o < |s2.producers| ensures ProducerOk(s2, o) {
      assert ProducerOk(s, o);
    }
    forall q ensures SequenceOk(s2, q) && SlotOk(s2, q) {
      assert SequenceOk(s, q) && SlotOk(s, q);
    }
  }

  lemma ClaimProducers<T>(s: Mp<T>, p: nat, vs: seq<T>, pc2: Producer, o: nat)
    requires Inv(s) && p < |s.producers| && o < |s.producers| && Begins(s, p, vs, pc2)
    ensures Shape(SetProducer(Claim(s, p, vs), p, pc2)) && ProducerOk(SetProducer(Claim(s, p, vs), p, pc2), o)
  {
    hide Slot, Gen, SlotOk;
    var s2 := SetProducer(Claim(s, p, vs), p, pc2);
    assert ProducerOk(s, p) && ProducerOk(s, o);
    assert forall q :: 0 <= q <= s.claimed ==> s2.log[q] == s.log[q] && s2.owner[q] == s.owner[q];
    if o == p {
      forall q | s.claimed < q <= s2.claimed ensures s2.owner[q] == p && q !in s2.published {
        assert SequenceOk(s, q);
      }
    }
  }

  /** A claim by fetch-add, or by the exchange of try_next. */
  ghost predicate Begins<T>(s: Mp<T>, p: nat, vs: seq<T>, pc2: Producer)
    requires p < |s.producers|
  {
    || (s.producers[p] == Resting && pc2 == Waiting(s.claimed + 1, s.claimed + |vs|))
    || (s.producers[p] == Exchanging(s.claimed) && |vs| == 1
        && pc2 == Filling(s.claimed + 1, s.claimed + 1, s.claimed + 1))
  }

  lemma ClaimKeeps<T>(s: Mp<T>, p: nat, vs: seq<T>, pc2: Producer)
    requires Inv(s) && p < |s.producers| && Begins(s, p, vs, pc2)
    ensures Inv(SetProducer(Claim(s, p, vs), p, pc2))
  {
    hide Slot, Gen;
    var s2 := SetProducer(Claim(s, p, vs), p, pc2);
    forall o | 0 <= o < |s2.producers| ensures ProducerOk(s2, o) {
      ClaimProducers(s, p, vs, pc2, o);
    }
    hide ProducerOk;
    forall q ensures SequenceOk(s2, q) && SlotOk(s2, q) {
      assert SequenceOk(s, q) && SlotOk(s, q);
      assert 0 <= q <= s.claimed ==> s2.log[q] == s.log[q] && s2.owner[q] == s.owner[q];
    }
    assert s2.log[..|s.pulled|] == s.log[..|s.pulled|];
  }

  lemma FillKeeps<T>(s: Mp<T>, p: nat, s2: Mp<T>)
    requires Inv(s) && p < |s.producers| && s.producers[p].Filling?
             && 0 <= s.producers[p].at <= s.producers[p].hi < |s.log|
    requires var pc := s.producers[p];
             s2 == SetProducer(s.(ring := s.ring[Slot(pc.at, s.cap) := s.log[pc.at]]), p,
                               Filling(pc.lo, pc.hi, pc.at + 1))
    ensures Inv(s2)
  {
    var at := s.producers[p].at;
    assert ProducerOk(s, p) && SequenceOk(s, at);
    forall q | InWindow(s, q) ensures q != at ==> Slot(q, s.cap) != Slot(at, s.cap) {
      WindowSlots(s, q, at);
    }
    hide Slot, Gen;
    forall o | 0 <= o < |s2.producers| ensures ProducerOk(s2, o) {
      assert ProducerOk(s, o);
      forall q | 0 <= q <= s.claimed && Written(s.producers[o], q) ensures InWindow(s, q) && (o != p ==> q != at) {
        assert SequenceOk(s, q);
      }
    }
    forall q ensures SequenceOk(s2, q) && SlotOk(s2, q) {
      assert SequenceOk(s, q) && SlotOk(s, q);
    }
  }

  /** Sequences of the window have distinct slots. */
  lemma WindowSlots<T>(s: Mp<T>, q: int, p: int)
    requires s.cap > 0 && InWindow(s, q) && InWindow(s, p)
    ensures q != p ==> Slot(q, s.cap) != Slot(p, s.cap)
  {
    if Slot(q, s.cap) == Slot(p, s.cap) {
      SameSlot(q, p, s.cap);
      SameSlot(p, q, s.cap);
    }
  }

  ghost function Publish<T>(s: Mp<T>, p: nat): Mp<T>
    requires Shape(s) && p < |s.producers| && s.producers[p].Publishing?
  {
    var pc := s.producers[p];
    SetProducer(s.(gens := s.gens[Slot(pc.at, s.cap) := Gen(pc.at, s.cap)], published := s.published + {pc.at}),
                p, Publishing(pc.lo, pc.hi, pc.at + 1))
  }

  lemma PublishProducers<T>(s: Mp<T>, p: nat, o: nat)
    requires Inv(s) && p < |s.producers| && s.producers[p].Publishing? && s.producers[p].at <= s.producers[p].hi
    requires o < |s.producers|
    ensures ProducerOk(Publish(s, p), o)
  {
    hide Slot, Gen, SlotOk;
    assert ProducerOk(s, p) && ProducerOk(s, o);
    var s2, at := Publish(s, p), s.producers[p].at;
    assert s.owner[at] == p;
    if o != p {
      assert s2.producers[o] == s.producers[o];
      assert !OwesSignal(s.producers[o], at);
    }
  }

  lemma PublishSequences<T>(s: Mp<T>, p: nat, q: int)
    requires Inv(s) && p < |s.producers| && s.producers[p].Publishing? && s.producers[p].at <= s.producers[p].hi
    ensures SequenceOk(Publish(s, p), q)
  {
    hide Slot, Gen, SlotOk;
    assert ProducerOk(s, p) && SequenceOk(s, q);
  }

  lemma PublishSlots<T>(s: Mp<T>, p: nat, q: int)
    requires Inv(s) && p < |s.producers| && s.producers[p].Publishing? && s.producers[p].at <= s.producers[p].hi
    ensures SlotOk(Publish(s, p), q)
  {
    var at := s.producers[p].at;
    assert ProducerOk(s, p) && SequenceOk(s, at) && SlotOk(s, q);
    if InWindow(s, q) {
      WindowSlots(s, q, at);
    }
    hide Slot, Gen;
  }

  lemma PublishKeeps<T>(s: Mp<T>, p: nat)
    requires Inv(s) && p < |s.producers| && s.producers[p].Publishing? && s.producers[p].at <= s.producers[p].hi
    ensures Inv(Publish(s, p))
  {
    hide Slot, Gen, SlotOk, SequenceOk, ProducerOk;
    var s2 := Publish(s, p);
    forall o | 0 <= o < |s2.producers| ensures ProducerOk(s2, o) {
      PublishProducers(s, p, o);
    }
    forall q ensures SequenceOk(s2, q) && SlotOk(s2, q) {
      PublishSequences(s, p, q);
      PublishSlots(s, p, q);
    }
  }

  lemma SignalKeeps<T>(s: Mp<T>, p: nat, s2: Mp<T>)
    requires Inv(s) && p < |s.producers| && s.producers[p].Signalling? && MutexFree(s.consumer)
    requires s2 == SetProducer(if s.consumer.Asleep? then s.(consumer := Asleep(true)) else s, p, Resting)
    ensures Inv(s2)
  {
    hide Slot, Gen;
    forall o | 0 <= o < |s2.producers| ensures ProducerOk(s2, o) {
      assert ProducerOk(s, o);
    }
    forall q ensures SequenceOk(s2, q) && SlotOk(s2, q) {
      assert SequenceOk(s, q) && SlotOk(s, q);
    }
  }

  lemma ProducerKeeps<T>(s: Mp<T>, p: nat, a: Choice<T>, s2: Mp<T>)
    requires Inv(s) && Produces(s, p, a, s2)
    ensures Inv(s2)
  {
    hide Slot, Gen, SequenceOk, SlotOk, ConsumerOk, SignalOwed;
    assert ProducerOk(s, p);
    match s.producers[p]
    case Resting =>
      if a.Begin? {
        ClaimKeeps(s, p, a.vs, Waiting(s.claimed + 1, s.claimed + |a.vs|));
      } else {
        Advances(s, p, Checking(s.claimed));
      }
    case Waiting(lo, hi) =>
      if hi - s.cap <= s.consumed {
        Advances(s, p, Filling(lo, hi, lo));
      }
    case Filling(lo, hi, at) =>
      if at > hi {
        Advances(s, p, Publishing(lo, hi, lo));
      } else {
        FillKeeps(s, p, s2);
      }
    case Publishing(lo, hi, at) =>
      if at > hi {
        Advances(s, p, Signalling(lo, hi));
      } else {
        PublishKeeps(s, p);
      }
    case Signalling(lo, hi) => SignalKeeps(s, p, s2);
    case Checking(seen) => Advances(s, p, if seen + 1 - s.cap > s.consumed then Resting else Exchanging(seen));
    case Exchanging(seen) =>
      if a.Go? && s.claimed == seen {
        ClaimKeeps(s, p, [a.v], Filling(seen + 1, seen + 1, seen + 1));
      } else {
        Advances(s, p, Resting);
      }
  }

  // ------------------------------------------------------------------ steps of the consumer

  /** A step that moves the consumer's program counter, its cache and its output only. */
  lemma ConsumerAdvances<T>(s: Mp<T>, s2: Mp<T>)
    requires Inv(s) && s2 == s.(consumer := s2.consumer, cached := s2.cached, pulled := s2.pulled)
    requires -1 <= s2.cached <= s.claimed && (forall q :: 0 <= q <= s2.cached ==> q in s.published)
    requires ConsumerOk(s2)
    requires Parked(s2.consumer) ==> Parked(s.consumer) || s.claimed < s.consumed + 1
    ensures Inv(s2)
  {
    hide Slot, Gen;
    forall o | 0 <= o < |s2.producers| ensures ProducerOk(s2, o) {
      assert ProducerOk(s, o);
    }
    forall q ensures SequenceOk(s2, q) && SlotOk(s2, q) {
      assert SequenceOk(s, q) && SlotOk(s, q);
    }
  }

  /** The generation test is exact at the position a scan from consumed + 1 has reached. */
  lemma ScanTest<T>(s: Mp<T>, q: int)
    requires Inv(s) && s.consumed < q <= s.claimed
    requires forall j :: s.consumed < j < q ==> j in s.published
    ensures s.gens[Slot(q, s.cap)] == Gen(q, s.cap) <==> q in s.published
  {
    if q <= s.consumed + s.cap {
      assert SlotOk(s, q);
      NextLapDiffers(q, s.cap);
    } else {
      assert SequenceOk(s, q) && SequenceOk(s, q - 1);
      assert q - 1 == s.consumed + s.cap;
      assert SlotOk(s, q - s.cap);
      SlotShift(q, s.cap);
      NextLapDiffers(q, s.cap);
    }
  }

  lemma ReadKeeps<T>(s: Mp<T>, s2: Mp<T>)
    requires Inv(s) && s.consumer.Reading? && s.consumer.at <= s.consumer.hi
    requires s2 == s.(pulled := s.pulled + [s.ring[Slot(s.consumer.at, s.cap)]],
                      consumer := Reading(s.consumer.at + 1, s.consumer.hi))
    ensures Inv(s2) && s2.pulled == s.pulled + [s.log[|s.pulled|]]
  {
    var at := s.consumer.at;
    assert SequenceOk(s, at) && SlotOk(s, at);
    assert s.pulled + [s.log[at]] == s.log[..at + 1];
    hide Slot;
    forall q | 0 <= q <= s.cached ensures q in s.published {
      assert SequenceOk(s, q);
    }
    ConsumerAdvances(s, s2);
  }

  lemma ConsumeKeeps<T>(s: Mp<T>, s2: Mp<T>)
    requires Inv(s) && s.consumer.Reading? && s.consumer.at > s.consumer.hi
    requires s2 == s.(consumed := s.consumer.hi, consumer := Pulling)
    ensures Inv(s2)
  {
    assert SequenceOk(s, s.consumer.hi);
    forall q ensures SlotOk(s2, q) {
      assert SlotOk(s, q) && SlotOk(s, q - s.cap);
      if InWindow(s2, q) && !InWindow(s, q) {
        assert SequenceOk(s, q);
        SlotShift(q, s.cap);
      }
    }
    hide Slot, Gen, SlotOk;
    forall o | 0 <= o < |s2.producers| ensures ProducerOk(s2, o) {
      assert ProducerOk(s, o);
    }
    forall q ensures SequenceOk(s2, q) {
      assert SequenceOk(s, q);
    }
  }

  lemma AfterScanKeeps<T>(s: Mp<T>, frontier: int, s2: Mp<T>)
    requires Inv(s) && s.consumer.Scanning? && frontier <= s.claimed && AfterScan(s, frontier, s2)
    requires forall q :: s.consumed < q <= frontier ==> q in s.published
    ensures Inv(s2)
  {
    hide Slot, Gen, SlotOk, ProducerOk;
    forall q | 0 <= q <= frontier ensures q in s.published {
      assert SequenceOk(s, q);
    }
    forall q | 0 <= q <= s.cached ensures q in s.published {
      assert SequenceOk(s, q);
    }
    ConsumerAdvances(s, s2);
  }

  lemma ConsumerKeeps<T>(s: Mp<T>, s2: Mp<T>)
    requires Inv(s) && ConsumerStep(s, s2)
    ensures Inv(s2)
  {
    hide Slot, Gen, SlotOk, ProducerOk, AfterScan;
    forall q | 0 <= q <= s.cached ensures q in s.published {
      assert SequenceOk(s, q);
    }
    match s.consumer
    case Scanning(at, bound) =>
      if at > bound {
        AfterScanKeeps(s, bound, s2);
      } else {
        ScanTest(s, at);
        if s.gens[Slot(at, s.cap)] != Gen(at, s.cap) {
          AfterScanKeeps(s, at - 1, s2);
        } else {
          ConsumerAdvances(s, s2);
        }
      }
    case Reading(at, hi) =>
      if at > hi {
        ConsumeKeeps(s, s2);
      } else {
        ReadKeeps(s, s2);
      }
    case _ => ConsumerAdvances(s, s2);
  }

  lemma {:induction false} Invariant<T(!new)>(r: seq<Mp<T>>, k: nat)
    requires Run(r) && k < |r|
    ensures Inv(r[k])
  {
    hide Inv, ConsumerStep, Produces, Init;
    if k == 0 {
      InvInit(r[0]);
    } else {
      Invariant(r, k - 1);
      assert Moves(r[k - 1], r[k - 1 + 1]);
      if ConsumerStep(r[k - 1], r[k]) {
        ConsumerKeeps(r[k - 1], r[k]);
      } else {
        var p: nat, a: Choice<T> :| Produces(r[k - 1], p, a, r[k]);
        ProducerKeeps(r[k - 1], p, a, r[k]);
      }
    }
  }
}
