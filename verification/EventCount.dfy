/**
 The event count: an epoch and a waiter count packed in one 64-bit word, a futex on the
 epoch half, any number of threads. The kernel's wait compares and parks in one step; its
 wake releases at most the given number of parked threads.
 */
module EventCount {
  import opened Basics

  const INT_MAX := 0x7FFF_FFFF

  /** A registered thread carries its key and `since`, the number of notifications before its
      registration; a waking thread carries `born`, the number of its own notification. */
  datatype Pc =
    | Out
    | Prepared(key: int, since: nat)
    | Entering(key: int, since: nat)
    | Parked(key: int, since: nat)
    | Leaving
    | Waking(count: nat, born: nat)

  /** `kinds` is the history of notifications, true for notify_all. */
  datatype State = State(word: int, ths: seq<Pc>, kinds: seq<bool>)

  function Epoch(word: int): int {
    word / TWO_32
  }

  function WaiterCount(word: int): int {
    word % TWO_32
  }

  /** 64-bit unsigned arithmetic. */
  function Wrap(x: int): int {
    x % TWO_64
  }

  datatype Action = Prepare | Cancel | Wait(expired: bool) | Notify(all: bool) | Step | Wake(woken: set<nat>)

  ghost function Move(s: State, t: nat, word: int, pc: Pc): State
    requires t < |s.ths|
  {
    s.(word := word, ths := s.ths[t := pc])
  }

  ghost predicate Release(s: State, t: nat, woken: set<nat>, s2: State)
    requires t < |s.ths|
  {
    && |s2.ths| == |s.ths| && s2 == s.(ths := s2.ths)
    && forall q :: 0 <= q < |s.ths| ==> s2.ths[q] == if q == t then Out else if q in woken then Leaving else s.ths[q]
  }

  /** FUTEX_WAKE: a set of parked threads, all of them unless the count runs out. */
  ghost predicate Wakeable(s: State, count: nat, woken: set<nat>) {
    && (forall q :: q in woken ==> q < |s.ths| && s.ths[q].Parked?)
    && |woken| <= count
    && (|woken| < count ==> forall q :: 0 <= q < |s.ths| && s.ths[q].Parked? ==> q in woken)
  }

  ghost predicate Moves(s: State, t: nat, a: Action, s2: State) {
    && t < |s.ths|
    && match s.ths[t]
       case Out =>
         if a.Prepare? then s2 == Move(s, t, Wrap(s.word + 1), Prepared(Epoch(s.word), |s.kinds|))
         else
           && a.Notify?
           && s2 == Move(s, t, Wrap(s.word + TWO_32),
                         if WaiterCount(s.word) != 0 then Waking(if a.all then INT_MAX else 1, |s.kinds| + 1) else Out)
                    .(kinds := s.kinds + [a.all])
       case Prepared(key, since) =>
         if a.Cancel? then s2 == Move(s, t, Wrap(s.word - 1), Out)
         else
           && a.Wait?
           && s2 == Move(s, t, s.word, if !a.expired && Epoch(s.word) == key then Entering(key, since) else Leaving)
       case Entering(key, since) =>
         s2 == Move(s, t, s.word, if Epoch(s.word) == key then Parked(key, since) else Leaving)
       case Parked(_, _) => s2 == Move(s, t, s.word, Leaving)  // deadline, signal or spurious wake
       case Leaving => s2 == Move(s, t, Wrap(s.word - 1), Out)
       case Waking(count, _) => a.Wake? && Wakeable(s, count, a.woken) && Release(s, t, a.woken, s2)
  }

  ghost predicate Next(s: State, s2: State) {
    exists t: nat, a: Action {:trigger Moves(s, t, a, s2)} :: Moves(s, t, a, s2)
  }

  ghost predicate Init(s: State) {
    s.word == 0 && s.kinds == [] && forall t :: 0 <= t < |s.ths| ==> s.ths[t] == Out
  }

  ghost predicate Run(r: seq<State>) {
    && r != [] && Init(r[0]) && |r[0].ths| < TWO_32
    && (forall k :: 0 <= k < |r| - 1 ==> Next(r[k], r[k + 1]))
  }

  /** No thread has slept through 2^32 notifications between its registration and its park. */
  ghost predicate Prompt(s: State) {
    forall t :: 0 <= t < |s.ths| && s.ths[t].Entering? ==> |s.kinds| < s.ths[t].since + TWO_32
  }

  /** A run of prompt threads, few enough for one wake to reach them all. */
  ghost predicate PromptRun(r: seq<State>) {
    Run(r) && |r[0].ths| <= INT_MAX && forall k :: 0 <= k < |r| ==> Prompt(r[k])
  }

  // ------------------------------------------------------------------ the packed word

  predicate Registered(pc: Pc) {
    pc.Prepared? || pc.Entering? || pc.Parked? || pc.Leaving?
  }

  function Waiters(ths: seq<Pc>): (n: nat)
    ensures n <= |ths|
  {
    if ths == [] then 0 else Waiters(ths[..|ths| - 1]) + One(Registered(ths[|ths| - 1]))
  }

  lemma {:induction false} WaitersUpdate(ths: seq<Pc>, t: nat, pc: Pc)
    requires t < |ths|
    ensures Waiters(ths[t := pc]) + One(Registered(ths[t])) == Waiters(ths) + One(Registered(pc))
  {
    var k := |ths| - 1;
    if t == k {
      assert ths[t := pc][..k] == ths[..k];
    } else {
      assert ths[t := pc][..k] == ths[..k][t := pc];
      WaitersUpdate(ths[..k], t, pc);
    }
  }

  lemma {:induction false} WaitersMember(ths: seq<Pc>, t: nat)
    requires t < |ths|
    ensures Registered(ths[t]) ==> Waiters(ths) >= 1
    ensures !Registered(ths[t]) ==> Waiters(ths) < |ths|
  {
    if t < |ths| - 1 {
      WaitersMember(ths[..|ths| - 1], t);
    }
  }

  lemma {:induction false} WaitersSame(a: seq<Pc>, b: seq<Pc>)
    requires |a| == |b| && forall t :: 0 <= t < |a| ==> Registered(a[t]) == Registered(b[t])
    ensures Waiters(a) == Waiters(b)
  {
    if a != [] {
      WaitersSame(a[..|a| - 1], b[..|b| - 1]);
    }
  }

  /** The halves of the word are the number of notifications modulo 2^32 and the number of
      registered threads: the count never carries into the epoch nor borrows from it. */
  ghost predicate WordOk(s: State) {
    && s.word == Pack(|s.kinds|, Waiters(s.ths))
    && Waiters(s.ths) < TWO_32
  }

  lemma WordHalves(s: State)
    requires WordOk(s)
    ensures Epoch(s.word) == |s.kinds| % TWO_32 && WaiterCount(s.word) == Waiters(s.ths)
  {
  }

  function Pack(total: nat, count: int): int {
    (total % TWO_32) * TWO_32 + count
  }

  lemma PackAdvances(total: nat, count: nat)
    requires count < TWO_32
    ensures Wrap(Pack(total, count)) == Pack(total, count)
    ensures Wrap(Pack(total, count) + TWO_32) == Pack(total + 1, count)
  {
    var e := total % TWO_32;
    assert (total + 1) % TWO_32 == if e == TWO_32 - 1 then 0 else e + 1;
  }

  lemma ReleaseWord(s: State, t: nat, count: nat, woken: set<nat>, s2: State)
    requires WordOk(s) && t < |s.ths| && s.ths[t].Waking? && Wakeable(s, count, woken) && Release(s, t, woken, s2)
    ensures WordOk(s2)
  {
    WaitersSame(s.ths, s2.ths);
  }

  lemma WordMove(s: State, t: nat, a: Action, s2: State)
    requires WordOk(s) && |s.ths| < TWO_32 && Moves(s, t, a, s2)
    ensures WordOk(s2)
  {
    hide Wrap, Epoch, WaiterCount, Wakeable, Release;
    if s.ths[t].Waking? {
      ReleaseWord(s, t, s.ths[t].count, a.woken, s2);
    } else {
      PlainWord(s, t, a, s2);
    }
  }

  lemma PlainWord(s: State, t: nat, a: Action, s2: State)
    requires WordOk(s) && |s.ths| < TWO_32 && Moves(s, t, a, s2) && !s.ths[t].Waking?
    ensures WordOk(s2)
  {
    hide Wrap, Epoch, WaiterCount, Waiters;
    var n: int := Waiters(s.ths);
    WaitersMember(s.ths, t);
    WaitersUpdate(s.ths, t, s2.ths[t]);
    assert s2.ths == s.ths[t := s2.ths[t]];
    PackAdvances(|s.kinds|, n);
    PackAdvances(|s.kinds|, Waiters(s2.ths));
    assert s.word + 1 == Pack(|s.kinds|, n + 1) && s.word - 1 == Pack(|s.kinds|, n - 1);
    hide Pack;
  }

  // ------------------------------------------------------------------ no missed notification

  ghost predicate Pending(s: State, b: nat) {
    exists t :: 0 <= t < |s.ths| && s.ths[t] == Waking(INT_MAX, b)
  }

  /** Every notify_all since thread `t` registered has yet to perform its wake. */
  ghost predicate Covered(s: State, t: nat)
    requires t < |s.ths|
  {
    s.ths[t].Parked? ==>
      forall b :: s.ths[t].since < b <= |s.kinds| && s.kinds[b - 1] ==> Pending(s, b)
  }

  ghost predicate KeyOk(s: State, pc: Pc) {
    match pc
    case Prepared(key, since) => key == since % TWO_32 && since <= |s.kinds|
    case Entering(key, since) => key == since % TWO_32 && since <= |s.kinds|
    case Parked(key, since) => key == since % TWO_32 && since <= |s.kinds|
    case _ => true
  }

  ghost predicate KeysOk(s: State) {
    && WordOk(s) && |s.ths| < TWO_32
    && (forall t :: 0 <= t < |s.ths| ==> KeyOk(s, s.ths[t]))
  }

  ghost predicate AllCovered(s: State) {
    forall t :: 0 <= t < |s.ths| ==> Covered(s, t)
  }

  /** The test of the kernel is exact up to 2^32 notifications, and passes then exactly if there was none. */
  lemma SameEpoch(since: nat, total: nat)
    requires since <= total
    ensures total % TWO_32 == since % TWO_32 <==> (total - since) % TWO_32 == 0
    ensures total < since + TWO_32 ==> (total % TWO_32 == since % TWO_32 <==> total == since)
  {
  }

  lemma {:induction false} Below(s: set<nat>, n: nat)
    requires forall q :: q in s ==> q < n
    ensures |s| <= n
  {
    if n > 0 {
      Below(s - {n - 1}, n - 1);
      assert n - 1 in s ==> s == (s - {n - 1}) + {n - 1};
      assert n - 1 !in s ==> s == s - {n - 1};
    } else {
      assert s == {};
    }
  }

  /** A wake of INT_MAX releases every parked thread: the waker itself is not parked. */
  lemma WakesAll(s: State, t: nat, woken: set<nat>)
    requires |s.ths| <= INT_MAX && t < |s.ths| && s.ths[t].Waking? && Wakeable(s, INT_MAX, woken)
    ensures forall q :: 0 <= q < |s.ths| && s.ths[q].Parked? ==> q in woken
  {
    Below(woken + {t}, |s.ths|);
  }

  lemma CoveredMove(s: State, t: nat, a: Action, s2: State, q: nat)
    requires KeysOk(s) && AllCovered(s) && |s.ths| <= INT_MAX && Prompt(s) && Moves(s, t, a, s2) && q < |s2.ths|
    ensures Covered(s2, q)
  {
    WordHalves(s);
    assert |s2.ths| == |s.ths| && KeyOk(s, s.ths[q]) && Covered(s, q);
    if s2.ths[q].Parked? {
      if q == t {
        SameEpoch(s.ths[t].since, |s.kinds|);
      } else {
        assert s2.ths[q] == s.ths[q];
        WaitersMember(s.ths, q);
        if s.ths[t].Waking? && s.ths[t].count == INT_MAX {
          WakesAll(s, t, a.woken);
        }
        forall b | s.ths[q].since < b <= |s2.kinds| && s2.kinds[b - 1] ensures Pending(s2, b) {
          if b <= |s.kinds| {
            assert s2.kinds[b - 1] == s.kinds[b - 1];
            assert Pending(s, b);
            var o :| 0 <= o < |s.ths| && s.ths[o] == Waking(INT_MAX, b);
            assert o != t && s2.ths[o] == Waking(INT_MAX, b);
          } else {
            assert s2.ths[t] == Waking(INT_MAX, b);
          }
        }
      }
    }
  }

  lemma KeysMove(s: State, t: nat, a: Action, s2: State)
    requires KeysOk(s) && Moves(s, t, a, s2)
    ensures KeysOk(s2)
  {
    WordMove(s, t, a, s2);
    WordHalves(s);
    forall q | 0 <= q < |s2.ths| ensures KeyOk(s2, s2.ths[q]) {
      assert KeyOk(s, s.ths[q]);
    }
  }

  lemma {:induction false} WaitersNone(ths: seq<Pc>)
    requires forall t :: 0 <= t < |ths| ==> ths[t] == Out
    ensures Waiters(ths) == 0
  {
    if ths != [] {
      WaitersNone(ths[..|ths| - 1]);
    }
  }

  lemma {:induction false} KeysInvariant(r: seq<State>, k: nat)
    requires Run(r) && k < |r|
    ensures KeysOk(r[k]) && |r[k].ths| == |r[0].ths|
  {
    if k == 0 {
      WaitersNone(r[0].ths);
    } else {
      KeysInvariant(r, k - 1);
      assert Next(r[k - 1], r[k - 1 + 1]);
      var t: nat, a: Action :| Moves(r[k - 1], t, a, r[k]);
      hide KeysOk;
      KeysMove(r[k - 1], t, a, r[k]);
    }
  }

  lemma {:induction false} CoverInvariant(r: seq<State>, k: nat)
    requires PromptRun(r) && k < |r|
    ensures AllCovered(r[k])
  {
    if k > 0 {
      CoverInvariant(r, k - 1);
      KeysInvariant(r, k - 1);
      assert Next(r[k - 1], r[k - 1 + 1]) && Prompt(r[k - 1]);
      hide KeysOk, Moves, Covered, Prompt;
      var t: nat, a: Action :| Moves(r[k - 1], t, a, r[k]);
      forall q | 0 <= q < |r[k].ths| ensures Covered(r[k], q) {
        CoveredMove(r[k - 1], t, a, r[k], q);
      }
    }
  }

  // ------------------------------------------------------------------ what callers rely on

  /** A thread parked across a notify_all has that notification's wake still coming. */
  lemma NotifyAllNeverMissed(r: seq<State>, k: nat, t: nat, b: nat)
    requires PromptRun(r) && k < |r| && t < |r[k].ths| && r[k].ths[t].Parked?
    requires r[k].ths[t].since < b <= |r[k].kinds| && r[k].kinds[b - 1]
    ensures Pending(r[k], b)
  {
    CoverInvariant(r, k);
    assert Covered(r[k], t);
  }

  /** The word counts exactly, and its two halves never disturb each other. */
  lemma WordExact(r: seq<State>, k: nat)
    requires Run(r) && k < |r|
    ensures Epoch(r[k].word) == |r[k].kinds| % TWO_32
    ensures WaiterCount(r[k].word) == Waiters(r[k].ths) && 0 <= r[k].word < TWO_64
  {
    KeysInvariant(r, k);
    WordHalves(r[k]);
  }

  /** A notification that finds no waiter may skip the system call: nobody is parked or about to be. */
  lemma SkipIsSound(r: seq<State>, k: nat)
    requires Run(r) && k < |r| && WaiterCount(r[k].word) == 0
    ensures forall t :: 0 <= t < |r[k].ths| ==> !Registered(r[k].ths[t])
  {
    KeysInvariant(r, k);
    WordHalves(r[k]);
    forall t | 0 <= t < |r[k].ths| ensures !Registered(r[k].ths[t]) {
      WaitersMember(r[k].ths, t);
    }
  }

  /** A thread that reaches the kernel parks exactly if the number of notifications since it
      registered is a multiple of 2^32: none at all, for a prompt thread. */
  lemma ParksIffQuiet(r: seq<State>, k: nat, t: nat)
    requires Run(r) && k < |r| && t < |r[k].ths| && r[k].ths[t].Entering?
    ensures r[k].ths[t].since <= |r[k].kinds|
    ensures Epoch(r[k].word) == r[k].ths[t].key <==> (|r[k].kinds| - r[k].ths[t].since) % TWO_32 == 0
    ensures Prompt(r[k]) ==> (Epoch(r[k].word) == r[k].ths[t].key <==> |r[k].kinds| == r[k].ths[t].since)
  {
    KeysInvariant(r, k);
    WordHalves(r[k]);
    assert KeyOk(r[k], r[k].ths[t]);
    SameEpoch(r[k].ths[t].since, |r[k].kinds|);
  }

  /** notify advances the epoch by one and leaves the count alone; it goes on to wake threads
      exactly if some thread is registered, one of them or all as asked. */
  lemma NotifyExact(r: seq<State>, k: nat, t: nat, all: bool)
    requires Run(r) && k + 1 < |r| && t < |r[k].ths| && r[k].ths[t] == Out && Moves(r[k], t, Notify(all), r[k + 1])
    ensures Epoch(r[k + 1].word) == (Epoch(r[k].word) + 1) % TWO_32
    ensures WaiterCount(r[k + 1].word) == WaiterCount(r[k].word)
    ensures |r[k + 1].ths| == |r[k].ths|
    ensures r[k + 1].ths[t] == if exists q :: 0 <= q < |r[k].ths| && Registered(r[k].ths[q])
                               then Waking(if all then INT_MAX else 1, |r[k].kinds| + 1) else Out
  {
    WordExact(r, k);
    WordExact(r, k + 1);
    SomeoneRegistered(r[k].ths);
    NotifyMoves(r[k], t, all, r[k + 1]);
    hide *;
    NextEpoch(|r[k].kinds|);
  }

  lemma NotifyMoves(s: State, t: nat, all: bool, s2: State)
    requires t < |s.ths| && s.ths[t] == Out && Moves(s, t, Notify(all), s2)
    ensures |s2.ths| == |s.ths| && |s2.kinds| == |s.kinds| + 1 && Waiters(s2.ths) == Waiters(s.ths)
    ensures s2.ths[t] == if WaiterCount(s.word) != 0 then Waking(if all then INT_MAX else 1, |s.kinds| + 1) else Out
  {
    WaitersUpdate(s.ths, t, s2.ths[t]);
    hide Waiters;
  }

  lemma NextEpoch(n: nat)
    ensures (n + 1) % TWO_32 == (n % TWO_32 + 1) % TWO_32
  {
  }

  lemma SomeoneRegistered(ths: seq<Pc>)
    ensures Waiters(ths) > 0 <==> exists q :: 0 <= q < |ths| && Registered(ths[q])
  {
    if q :| 0 <= q < |ths| && Registered(ths[q]) {
      WaitersMember(ths, q);
    } else {
      NobodyRegistered(ths);
    }
  }

  lemma {:induction false} NobodyRegistered(ths: seq<Pc>)
    requires forall t :: 0 <= t < |ths| ==> !Registered(ths[t])
    ensures Waiters(ths) == 0
  {
    if ths != [] {
      NobodyRegistered(ths[..|ths| - 1]);
    }
  }

  /** prepare_wait takes the current epoch as its key; wait_until goes to sleep exactly if its
      deadline has not passed and the epoch is still that key, and else returns. */
  lemma WaitExact(r: seq<State>, k: nat, t: nat, a: Action)
    requires Run(r) && k + 1 < |r| && t < |r[k].ths| && Moves(r[k], t, a, r[k + 1])
    ensures |r[k + 1].ths| == |r[k].ths|
    ensures r[k].ths[t] == Out && a == Prepare ==> r[k + 1].ths[t] == Prepared(Epoch(r[k].word), |r[k].kinds|)
    ensures r[k].ths[t].Prepared? && a == Cancel ==> r[k + 1].ths[t] == Out
    ensures r[k].ths[t].Prepared? && a.Wait? ==>
              (r[k + 1].ths[t].Entering? <==> !a.expired && (|r[k].kinds| - r[k].ths[t].since) % TWO_32 == 0)
              && (r[k + 1].ths[t].Entering? || r[k + 1].ths[t] == Leaving)
    ensures r[k].ths[t] == Leaving ==> r[k + 1].ths[t] == Out
  {
    KeysInvariant(r, k);
    WordHalves(r[k]);
    assert KeyOk(r[k], r[k].ths[t]);
    if r[k].ths[t].Prepared? {
      SameEpoch(r[k].ths[t].since, |r[k].kinds|);
    }
  }
}
