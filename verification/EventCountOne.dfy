/**
 What notify_one is worth. A wake of one thread is certain to reach a given parked thread
 exactly if no other thread is parked, and notifications are observed in every run exactly
 if at most one thread ever waits (or there are too few threads for a third to notify).
 */
module EventCountOne {
  import opened Basics
  import opened EventCount

  // ------------------------------------------------------------------ one wake

  ghost predicate OnlyParked(s: State, t: nat) {
    forall q :: 0 <= q < |s.ths| && s.ths[q].Parked? ==> q == t
  }

  ghost function Released(s: State, w: nat, woken: set<nat>): State
    requires w < |s.ths|
  {
    s.(ths := seq(|s.ths|,
                  q requires 0 <= q < |s.ths| => if q == w then Out else if q in woken then Leaving else s.ths[q]))
  }

  /** If another thread is parked, the kernel may choose that one. */
  lemma WakeChooses(s: State, w: nat, q: nat)
    requires w < |s.ths| && q < |s.ths| && s.ths[w].Waking? && s.ths[w].count == 1 && s.ths[q].Parked?
    ensures Moves(s, w, Wake({q}), Released(s, w, {q}))
  {
  }

  /** A pending wake of one thread is certain to release the parked thread `t` exactly if no
      other thread is parked. */
  lemma WakeOneReaches(s: State, w: nat, t: nat)
    requires w < |s.ths| && t < |s.ths| && s.ths[w].Waking? && s.ths[w].count == 1 && s.ths[t].Parked?
    ensures OnlyParked(s, t) <==> forall a, s2 :: Moves(s, w, a, s2) ==> |s2.ths| == |s.ths| && !s2.ths[t].Parked?
  {
    if OnlyParked(s, t) {
      forall a, s2 | Moves(s, w, a, s2) ensures |s2.ths| == |s.ths| && !s2.ths[t].Parked? {
        WakesOnly(s, w, a.woken, t);
      }
    } else {
      var q :| 0 <= q < |s.ths| && s.ths[q].Parked? && q != t;
      WakeChooses(s, w, q);
      assert Released(s, w, {q}).ths[t].Parked?;
    }
  }

  lemma WakesOnly(s: State, w: nat, woken: set<nat>, t: nat)
    requires w < |s.ths| && t < |s.ths| && s.ths[t].Parked? && OnlyParked(s, t) && Wakeable(s, 1, woken)
    ensures t in woken
  {
    if |woken| == 1 {
      var q :| q in woken;
      assert q == t;
    }
  }

  // ------------------------------------------------------------------ whole runs

  /** The notifier that made notification `b` has yet to perform its wake. */
  ghost predicate Coming(s: State, b: nat) {
    exists o :: 0 <= o < |s.ths| && s.ths[o].Waking? && s.ths[o].born == b
  }

  /** Every notification since thread `t` registered, of one or of all, has its wake still coming. */
  ghost predicate Observes(s: State, t: nat)
    requires t < |s.ths|
  {
    s.ths[t].Parked? ==> forall b :: s.ths[t].since < b <= |s.kinds| ==> Coming(s, b)
  }

  ghost predicate Reliable(s: State) {
    forall t :: 0 <= t < |s.ths| ==> Observes(s, t)
  }

  /** No thread is waking one while two others are parked. */
  ghost predicate Uncrowded(s: State) {
    forall w, u, v ::
      0 <= w < |s.ths| && 0 <= u < |s.ths| && 0 <= v < |s.ths| && s.ths[w].Waking? && s.ths[u].Parked?
      && s.ths[v].Parked?
      ==> u == v
  }

  ghost predicate WakesOk(s: State) {
    forall o :: 0 <= o < |s.ths| && s.ths[o].Waking? ==> s.ths[o].count == 1 || s.ths[o].count == INT_MAX
  }

  lemma ObservesMove(s: State, t: nat, a: Action, s2: State, q: nat)
    requires KeysOk(s) && WakesOk(s) && Reliable(s) && Uncrowded(s) && |s.ths| <= INT_MAX && Prompt(s)
    requires Moves(s, t, a, s2) && q < |s2.ths|
    ensures Observes(s2, q) && WakesOk(s2)
  {
    WordHalves(s);
    assert |s2.ths| == |s.ths| && KeyOk(s, s.ths[q]) && Observes(s, q);
    if s2.ths[q].Parked? {
      if q == t {
        SameEpoch(s.ths[t].since, |s.kinds|);
      } else {
        assert s2.ths[q] == s.ths[q];
        WaitersMember(s.ths, q);
        if s.ths[t].Waking? {
          NoneLeftParked(s, t, a.woken, q);
        }
        forall b | s.ths[q].since < b <= |s2.kinds| ensures Coming(s2, b) {
          if b <= |s.kinds| {
            assert Coming(s, b);
            var o :| 0 <= o < |s.ths| && s.ths[o].Waking? && s.ths[o].born == b;
            assert o != t && s2.ths[o] == s.ths[o];
          } else {
            assert s2.ths[t].Waking? && s2.ths[t].born == b;
          }
        }
      }
    }
  }

  lemma NoneLeftParked(s: State, w: nat, woken: set<nat>, q: nat)
    requires |s.ths| <= INT_MAX && WakesOk(s) && Uncrowded(s)
    requires w < |s.ths| && s.ths[w].Waking? && Wakeable(s, s.ths[w].count, woken) && q < |s.ths| && s.ths[q].Parked?
    ensures q in woken
  {
    if s.ths[w].count == INT_MAX {
      WakesAll(s, w, woken);
    } else {
      WakesOnly(s, w, woken, q);
    }
  }

  /** In a run without such crowds no notification is missed. */
  lemma {:induction false} UncrowdedIsReliable(r: seq<State>, k: nat)
    requires PromptRun(r) && k < |r| && forall i :: 0 <= i < k ==> Uncrowded(r[i])
    ensures Reliable(r[k]) && WakesOk(r[k])
  {
    if k > 0 {
      UncrowdedIsReliable(r, k - 1);
      KeysInvariant(r, k - 1);
      assert Next(r[k - 1], r[k - 1 + 1]) && Prompt(r[k - 1]);
      hide KeysOk, Moves, Observes, Prompt, Uncrowded, WakesOk;
      var t: nat, a: Action :| Moves(r[k - 1], t, a, r[k]);
      SameThreads(r[k - 1], t, a, r[k]);
      ObservesMove(r[k - 1], t, a, r[k], t);
      forall q | 0 <= q < |r[k].ths| ensures Observes(r[k], q) {
        ObservesMove(r[k - 1], t, a, r[k], q);
      }
    }
  }

  lemma SameThreads(s: State, t: nat, a: Action, s2: State)
    requires Moves(s, t, a, s2)
    ensures t < |s.ths| == |s2.ths|
  {
  }

  /** Only threads of `waiters` ever register. */
  ghost predicate Confined(r: seq<State>, waiters: set<nat>) {
    forall k, t :: 0 <= k < |r| && 0 <= t < |r[k].ths| && Registered(r[k].ths[t]) ==> t in waiters
  }

  ghost predicate AlwaysReliable(r: seq<State>) {
    forall k :: 0 <= k < |r| ==> Reliable(r[k])
  }

  /** At most one thread can wait, or nobody is left to notify two that do. */
  ghost predicate Lonely(n: nat, waiters: set<nat>) {
    n <= 2 || forall u, v :: u in waiters && v in waiters && u < n && v < n ==> u == v
  }

  lemma LonelyIsUncrowded(r: seq<State>, k: nat, waiters: set<nat>)
    requires PromptRun(r) && Confined(r, waiters) && k < |r| && Lonely(|r[0].ths|, waiters)
    ensures Uncrowded(r[k])
  {
    KeysInvariant(r, k);
    hide PromptRun, Run, KeysOk;
    var s := r[k];
    forall w, u, v |
      0 <= w < |s.ths| && 0 <= u < |s.ths| && 0 <= v < |s.ths| && s.ths[w].Waking? && s.ths[u].Parked?
      && s.ths[v].Parked?
      ensures u == v
    {
      assert Registered(r[k].ths[u]) && Registered(r[k].ths[v]);
      assert u in waiters && v in waiters && u < |r[0].ths| && v < |r[0].ths|;
    }
  }

  lemma LonelyIsReliable(r: seq<State>, waiters: set<nat>)
    requires PromptRun(r) && Confined(r, waiters) && Lonely(|r[0].ths|, waiters)
    ensures AlwaysReliable(r)
  {
    hide PromptRun, Confined, Lonely, Reliable, Uncrowded;
    forall k | 0 <= k < |r| ensures Uncrowded(r[k]) {
      LonelyIsUncrowded(r, k, waiters);
    }
    forall k | 0 <= k < |r| ensures Reliable(r[k]) {
      UncrowdedIsReliable(r, k);
    }
  }

  // ------------------------------------------------------------------ runs that miss a notification

  ghost function Last(r: seq<State>): State
    requires r != []
  {
    r[|r| - 1]
  }

  /** A run of `n` threads in which only `waiters` register. */
  ghost predicate Scenario(r: seq<State>, n: nat, waiters: set<nat>) {
    PromptRun(r) && |r[0].ths| == n && Confined(r, waiters)
  }

  lemma Extend(r: seq<State>, n: nat, waiters: set<nat>, t: nat, a: Action, s: State) returns (r2: seq<State>)
    requires Scenario(r, n, waiters) && Moves(Last(r), t, a, s) && Prompt(s)
    requires forall q :: 0 <= q < |s.ths| && Registered(s.ths[q]) ==> q in waiters
    ensures Scenario(r2, n, waiters) && Last(r2) == s && r2 == r + [s]
  {
    r2 := r + [s];
    assert Next(Last(r), s);
    hide Moves, Next, Prompt;
    forall k | 0 <= k < |r2| - 1 ensures Next(r2[k], r2[k + 1]) {
      if k < |r| - 1 {
        assert Next(r[k], r[k + 1]);
      }
    }
    forall k | 0 <= k < |r2| ensures Prompt(r2[k]) {
      if k < |r| {
        assert Prompt(r[k]);
      }
    }
  }

  ghost predicate Small(s: State) {
    && 0 <= WaiterCount(s.word) < TWO_32 - 1 && Epoch(s.word) == |s.kinds|
    && s.word == |s.kinds| * TWO_32 + WaiterCount(s.word) && |s.kinds| < 2
  }

  /** A waiter registers and parks. */
  lemma Park(r: seq<State>, n: nat, waiters: set<nat>, u: nat) returns (r2: seq<State>)
    requires Scenario(r, n, waiters) && u < |Last(r).ths| && u in waiters && Last(r).ths[u] == Out && Small(Last(r))
    ensures Scenario(r2, n, waiters) && r <= r2
    ensures Last(r2) == Move(Last(r), u, Last(r).word + 1, Parked(|Last(r).kinds|, |Last(r).kinds|))
  {
    var s := Last(r);
    var e := |s.kinds|;
    AllPrompt(r, n, waiters);
    WordUp(s);
    var s1 := Move(s, u, s.word + 1, Prepared(e, e));
    var s2 := Move(s1, u, s1.word, Entering(e, e));
    var s3 := Move(s2, u, s2.word, Parked(e, e));
    r2 := Extend(r, n, waiters, u, Prepare, s1);
    r2 := Extend(r2, n, waiters, u, Wait(false), s2);
    r2 := Extend(r2, n, waiters, u, Step, s3);
    assert s3 == Move(s, u, s.word + 1, Parked(e, e));
  }

  lemma WordUp(s: State)
    requires Small(s)
    ensures Wrap(s.word + 1) == s.word + 1 && Epoch(s.word + 1) == Epoch(s.word)
    ensures WaiterCount(s.word + 1) == WaiterCount(s.word) + 1
    ensures |s.kinds| == 0 ==> Wrap(s.word + TWO_32) == s.word + TWO_32
    ensures Epoch(s.word + TWO_32) == Epoch(s.word) + 1 && WaiterCount(s.word + TWO_32) == WaiterCount(s.word)
  {
  }

  lemma AllPrompt(r: seq<State>, n: nat, waiters: set<nat>)
    requires Scenario(r, n, waiters)
    ensures Prompt(Last(r)) && forall q :: 0 <= q < |Last(r).ths| && Registered(Last(r).ths[q]) ==> q in waiters
  {
  }

  lemma Start(n: nat, waiters: set<nat>) returns (r: seq<State>)
    requires n <= INT_MAX
    ensures Scenario(r, n, waiters) && Last(r) == State(0, seq(n, _ => Out), [])
  {
    r := [State(0, seq(n, _ => Out), [])];
  }

  /** Thread `w` notifies one waiter and is about to wake it. */
  lemma NotifyOne(r: seq<State>, n: nat, waiters: set<nat>, w: nat) returns (r2: seq<State>)
    requires Scenario(r, n, waiters) && w < |Last(r).ths| && Last(r).ths[w] == Out
    requires Small(Last(r)) && Last(r).kinds == [] && WaiterCount(Last(r).word) > 0
    ensures Scenario(r2, n, waiters) && r <= r2 && |r2| == |r| + 1
    ensures Last(r2) == Move(Last(r), w, Last(r).word + TWO_32, Waking(1, 1)).(kinds := [false])
  {
    var s := Last(r);
    AllPrompt(r, n, waiters);
    WordUp(s);
    r2 := Extend(r, n, waiters, w, Notify(false), Move(s, w, s.word + TWO_32, Waking(1, 1)).(kinds := [false]));
  }

  lemma WakeOther(r: seq<State>, n: nat, waiters: set<nat>, w: nat, q: nat) returns (r2: seq<State>)
    requires Scenario(r, n, waiters) && w < |Last(r).ths| && q < |Last(r).ths|
    requires Last(r).ths[w].Waking? && Last(r).ths[w].count == 1 && Last(r).ths[q].Parked?
    ensures Scenario(r2, n, waiters) && Last(r2) == Released(Last(r), w, {q}) && r <= r2
  {
    AllPrompt(r, n, waiters);
    WakeChooses(Last(r), w, q);
    r2 := Extend(r, n, waiters, w, Wake({q}), Released(Last(r), w, {q}));
  }

  ghost predicate Misses(s: State, u: nat) {
    u < |s.ths| && s.ths[u].Parked? && s.ths[u].since < |s.kinds| && forall o :: 0 <= o < |s.ths| ==> !s.ths[o].Waking?
  }

  /** Two threads are parked, and the one wake releases the other. */
  lemma TwoWaiters(n: nat, waiters: set<nat>, u: nat, v: nat, w: nat) returns (r: seq<State>)
    requires n <= INT_MAX && u < n && v < n && w < n && u != v && v != w && w != u && u in waiters && v in waiters
    ensures Scenario(r, n, waiters) && Misses(Last(r), u)
  {
    hide Scenario, Moves;
    r := Start(n, waiters);
    r := Park(r, n, waiters, u);
    r := Park(r, n, waiters, v);
    r := NotifyOne(r, n, waiters, w);
    r := WakeOther(r, n, waiters, w, v);
  }

  /** One thread is registered when the notification reads the count; a second one registers on
      the new epoch, parks, and is released in its place. */
  lemma OneWaiter(n: nat, waiters: set<nat>, u: nat, v: nat, w: nat) returns (r: seq<State>, k: nat)
    requires n <= INT_MAX && u < n && v < n && w < n && u != v && v != w && w != u && u in waiters && v in waiters
    ensures Scenario(r, n, waiters) && Misses(Last(r), u)
    ensures 0 < k < |r| && r[k - 1].kinds == [] && r[k].kinds == [false] && WaiterCount(r[k - 1].word) == 1
  {
    hide Scenario, Moves;
    r := Start(n, waiters);
    r := Park(r, n, waiters, u);
    k := |r|;
    r := NotifyOne(r, n, waiters, w);
    r := Park(r, n, waiters, v);
    r := WakeOther(r, n, waiters, w, v);
  }

  /** Notifications are observed in every run exactly if at most one thread waits, or there are
      too few threads for one to notify two others. */
  lemma NotifyOneReliableIff(n: nat, waiters: set<nat>)
    requires n <= INT_MAX
    ensures Lonely(n, waiters) <==> forall r :: Scenario(r, n, waiters) ==> AlwaysReliable(r)
  {
    if Lonely(n, waiters) {
      forall r | Scenario(r, n, waiters) ensures AlwaysReliable(r) {
        LonelyIsReliable(r, waiters);
      }
    } else {
      var u, v :| u in waiters && v in waiters && u < n && v < n && u != v;
      var w := if u != 0 && v != 0 then 0 else if u != 1 && v != 1 then 1 else 2;
      var r := TwoWaiters(n, waiters, u, v, w);
      MissIsUnreliable(r, u);
    }
  }

  lemma MissIsUnreliable(r: seq<State>, u: nat)
    requires r != [] && Misses(Last(r), u)
    ensures !AlwaysReliable(r)
  {
    var s := Last(r);
    assert !Coming(s, |s.kinds|);
    assert !Observes(s, u);
    assert !Reliable(r[|r| - 1]);
  }

  /** A thread that is the only one ever to register misses no notification, of one or of all. */
  lemma SoleWaiterObserves(r: seq<State>, k: nat, t: nat, b: nat)
    requires PromptRun(r) && Confined(r, {t}) && k < |r| && t < |r[k].ths| && r[k].ths[t].Parked?
    requires r[k].ths[t].since < b <= |r[k].kinds|
    ensures Coming(r[k], b)
  {
    LonelyIsReliable(r, {t});
    assert Reliable(r[k]) && Observes(r[k], t);
  }
}
