/**
 The pipeline from log() to a sink. Producers drop events below the gate, the consumer skips
 whole batches by their highest level, and strands run behind; the result is what a naive
 logger would do that gives every event to every sink and lets it filter.
 */
module LoggerPipeline {
  import opened Basics
  import opened DispatchWord
  import opened LogSink
  import opened LoggerModel
  import opened LoggerRegistry
  import opened LoggerGate

  // ------------------------------------------------------------------ one sink

  /** The events waiting on the strand. */
  function Pending(queue: seq<Task>): seq<Event> {
    if queue == [] then []
    else (if queue[0].Batch? then queue[0].es else []) + Pending(queue[1..])
  }

  lemma {:induction false} PendingAppend(queue: seq<Task>, task: Task)
    ensures Pending(queue + [task]) == Pending(queue) + (if task.Batch? then task.es else [])
  {
    if queue != [] {
      assert (queue + [task])[1..] == queue[1..] + [task];
      PendingAppend(queue[1..], task);
    }
  }

  lemma {:induction false} MaxLevelBounds(es: seq<Event>, i: nat)
    requires i < |es|
    ensures es[i].level <= MaxLevel(es)
  {
    if i < |es| - 1 {
      MaxLevelBounds(es[..|es| - 1], i);
    }
  }

  /** Every event that reached the sink is written, filtered out, lost, or waiting: each once. */
  ghost predicate Balanced(k: Sink) {
    multiset(k.offered) == Total(k.account) + multiset(Pending(k.queue))
  }

  /** A sink that lost nothing has written, or will write, exactly what its filter accepts. */
  ghost predicate Faithful(k: Sink) {
    k.fixed && k.account.lost == [] ==>
      k.account.written + Select(k.threshold, k.filter, Pending(k.queue), true)
      == Select(k.threshold, k.filter, k.offered, true)
  }

  lemma SkippedRejected(k: Sink, batch: seq<Event>)
    requires MaxLevel(batch) < k.threshold
    ensures Select(k.threshold, k.filter, batch, true) == []
  {
    forall i | 0 <= i < |batch| ensures !ShouldLog(k.threshold, k.filter, batch[i]) {
      MaxLevelBounds(batch, i);
    }
    SelectNone(k.threshold, k.filter, batch);
  }

  lemma OfferBalanced(k: Sink, batch: seq<Event>)
    requires Balanced(k)
    ensures Balanced(Offer(k, batch))
  {
    PendingAppend(k.queue, Batch(batch));
    TotalGrows(k.account, batch);
    hide MaxLevel, Pending, Total;
    assert multiset(k.offered + batch) == multiset(k.offered) + multiset(batch);
    assert multiset(Pending(k.queue) + batch) == multiset(Pending(k.queue)) + multiset(batch);
    BothGrow(multiset(k.offered), Total(k.account), multiset(Pending(k.queue)), multiset(batch));
  }

  lemma TotalGrows(account: Account, batch: seq<Event>)
    ensures Total(account.(rejected := account.rejected + batch)) == Total(account) + multiset(batch)
    ensures Total(account.(lost := account.lost + batch)) == Total(account) + multiset(batch)
  {
    assert multiset(account.rejected + batch) == multiset(account.rejected) + multiset(batch);
    assert multiset(account.lost + batch) == multiset(account.lost) + multiset(batch);
  }

  lemma BothGrow(o: multiset<Event>, a: multiset<Event>, p: multiset<Event>, b: multiset<Event>)
    requires o == a + p
    ensures o + b == (a + b) + p == a + (p + b)
  {
  }

  lemma OfferFaithful(k: Sink, batch: seq<Event>)
    requires Faithful(k)
    ensures Faithful(Offer(k, batch))
  {
    SelectConcat(k.threshold, k.filter, k.offered, batch, true);
    SelectConcat(k.threshold, k.filter, Pending(k.queue), batch, true);
    PendingAppend(k.queue, Batch(batch));
    if MaxLevel(batch) < k.threshold {
      SkippedRejected(k, batch);
    } else if k.status == Dead {
      if k.account.lost + batch == [] {
        assert batch == [];
        SelectNone(k.threshold, k.filter, batch);
      }
    }
    hide Select, Pending, MaxLevel;
  }

  lemma RunBalanced(k: Sink, n: nat, k2: Sink)
    requires Balanced(k) && StrandRuns(k, n, k2)
    ensures Balanced(k2)
  {
    var rest := Pending(k.queue[1..]);
    if k.queue[0].Batch? {
      var es := k.queue[0].es;
      BookTotal(k.threshold, k.filter, k.account, es, n);
      assert Pending(k.queue) == es + rest;
      hide Total, Pending, Book;
      assert multiset(es + rest) == multiset(es) + multiset(rest);
      BothGrow(Total(k.account) + multiset(rest), Total(k.account), multiset(rest), multiset(es));
    }
  }

  lemma RunFaithful(k: Sink, n: nat, k2: Sink)
    requires Faithful(k) && StrandRuns(k, n, k2)
    ensures Faithful(k2)
  {
    var rest := Pending(k.queue[1..]);
    if k.queue[0].Batch? {
      var es := k.queue[0].es;
      assert Pending(k.queue) == es + rest;
      SelectConcat(k.threshold, k.filter, es, rest, true);
      hide Select, Pending;
      if n == |es| {
        assert es[..n] == es && es[n..] == [];
      } else {
        assert k2.account.lost != [];
      }
    } else {
      assert Pending(k.queue) == rest;
    }
  }

  ghost predicate SinksOk(s: Logger) {
    forall id :: 0 <= id < |s.sinks| ==> Balanced(s.sinks[id]) && Faithful(s.sinks[id])
  }

  lemma SinksNext(s: Logger, s2: Logger)
    requires SinksOk(s) && Next(s, s2)
    ensures SinksOk(s2)
  {
    hide Balanced, Faithful, Offer, StrandRuns;
    if t: nat, a: Action :| ThreadStep(s, t, a, s2) {
      ThreadSinks(s, t, a, s2);
    } else if hi: nat :| ConsumerStep(s, hi, s2) {
      if s.consumer.Dispatching? && s.consumer.at < |s.tables[s.cached]| {
        OfferBalanced(s.sinks[s.tables[s.cached][s.consumer.at]], s.consumer.batch);
        OfferFaithful(s.sinks[s.tables[s.cached][s.consumer.at]], s.consumer.batch);
      }
    } else {
      var id: nat, n: nat :| StrandStep(s, id, n, s2);
      RunBalanced(s.sinks[id], n, s2.sinks[id]);
      RunFaithful(s.sinks[id], n, s2.sinks[id]);
    }
  }

  lemma NewSinkOk(threshold: nat, filter: PrefixFilter, status: Status, born: nat)
    ensures var k := Sink(threshold, filter, status, [], Account([], [], []), [], born, true);
            Balanced(k) && Faithful(k)
  {
  }

  /** A task that is no batch changes nothing for the events. */
  lemma PostedOk(k: Sink, task: Task)
    requires Balanced(k) && Faithful(k) && !task.Batch?
    ensures var k2 := k.(queue := k.queue + [task]); Balanced(k2) && Faithful(k2)
  {
    PendingAppend(k.queue, task);
    hide Select, Pending, Total;
    assert Pending(k.queue + [task]) == Pending(k.queue);
  }

  lemma RetunedOk(k: Sink, level: nat)
    requires Balanced(k)
    ensures var k2 := k.(threshold := level, fixed := false); Balanced(k2) && Faithful(k2)
  {
  }

  /** One sink is changed, or added. */
  lemma SetSinkOk(s: Logger, id: nat, k: Sink, s2: Logger)
    requires SinksOk(s) && Balanced(k) && Faithful(k)
    requires if id < |s.sinks| then s2.sinks == s.sinks[id := k] else s2.sinks == s.sinks + [k]
    ensures SinksOk(s2)
  {
    hide Balanced, Faithful;
  }

  lemma ThreadSinks(s: Logger, t: nat, a: Action, s2: Logger)
    requires SinksOk(s) && ThreadStep(s, t, a, s2)
    ensures SinksOk(s2)
  {
    hide SinksOk, Balanced, Faithful, Table, Without;
    if s.ths[t].Flushing? && s.ths[t].at < |s.tables[s.ths[t].snap]| {
      var id := s.tables[s.ths[t].snap][s.ths[t].at];
      SinkOk(s, id);
      PostedOk(s.sinks[id], Flush(t));
      SetSinkOk(s, id, s2.sinks[id], s2);
    } else if s.ths[t].Out? && a.PostMaintain? {
      SinkOk(s, a.id);
      PostedOk(s.sinks[a.id], Maintain);
      SetSinkOk(s, a.id, s2.sinks[a.id], s2);
    } else if s.ths[t].Out? && a.SetThreshold? {
      SinkOk(s, a.id);
      RetunedOk(s.sinks[a.id], a.level);
      SetSinkOk(s, a.id, s2.sinks[a.id], s2);
    } else if s.ths[t].Out? && a.Add? {
      NewSinkOk(a.threshold, a.filter, a.status, |s.tables|);
      SetSinkOk(s, |s.sinks|, s2.sinks[|s.sinks|], s2);
    } else {
      SameSinksOk(s, s2);
    }
  }

  lemma SinkOk(s: Logger, id: nat)
    requires SinksOk(s) && id < |s.sinks|
    ensures Balanced(s.sinks[id]) && Faithful(s.sinks[id])
  {
  }

  lemma SameSinksOk(s: Logger, s2: Logger)
    requires SinksOk(s) && s2.sinks == s.sinks
    ensures SinksOk(s2)
  {
    hide Balanced, Faithful;
  }

  // ------------------------------------------------------------------ the ring

  lemma {:induction false} EventsConcat(a: seq<Item>, b: seq<Item>)
    ensures Events(a + b) == Events(a) + Events(b)
  {
    if b == [] {
      assert a + b == a;
    } else {
      var k := |b| - 1;
      assert (a + b)[..|a + b| - 1] == a + b[..k];
      EventsConcat(a, b[..k]);
    }
  }

  /** The events taken from the ring so far. */
  ghost function Drained(s: Logger): seq<Event>
    requires s.next <= |s.ring|
  {
    Events(s.ring[..s.next])
  }

  /** The consumer takes no item after the first sentinel, and stops exactly there. */
  ghost predicate RingOk(s: Logger) {
    && s.next <= |s.ring|
    && (if Halting(s.consumer)
        then s.next > 0 && s.ring[s.next - 1].Stop? && forall i :: 0 <= i < s.next - 1 ==> s.ring[i].Entry?
        else forall i :: 0 <= i < s.next ==> s.ring[i].Entry?)
  }

  lemma ThreadRing(s: Logger, t: nat, a: Action, s2: Logger)
    requires ThreadStep(s, t, a, s2)
    ensures s.ring <= s2.ring && s2.next == s.next && s2.consumer == s.consumer
  {
    hide Without;
  }

  lemma StrandRing(s: Logger, id: nat, n: nat, s2: Logger)
    requires StrandStep(s, id, n, s2)
    ensures s2.ring == s.ring && s2.next == s.next && s2.consumer == s.consumer
    ensures s2.logged == s.logged && s2.dropped == s.dropped
    ensures |s2.ths| == |s.ths| && forall t :: 0 <= t < |s.ths| ==> Carried(s2.ths[t]) == Carried(s.ths[t])
  {
    hide StrandRuns;
  }

  lemma ConsumerRing(s: Logger, hi: nat, s2: Logger)
    requires ConsumerStep(s, hi, s2)
    ensures s2.ring == s.ring && s2.logged == s.logged && s2.dropped == s.dropped && s2.ths == s.ths
    ensures RingOk(s) ==> RingOk(s2)
  {
    hide Offer, Events;
  }

  lemma RingNext(s: Logger, s2: Logger)
    requires RingOk(s) && Next(s, s2)
    ensures RingOk(s2)
  {
    hide ConsumerStep, StrandStep, ThreadStep;
    if t: nat, a: Action :| ThreadStep(s, t, a, s2) {
      ThreadRing(s, t, a, s2);
    } else if hi: nat :| ConsumerStep(s, hi, s2) {
      hide RingOk;
      ConsumerRing(s, hi, s2);
    } else {
      var id: nat, n: nat :| StrandStep(s, id, n, s2);
      StrandRing(s, id, n, s2);
    }
  }

  // ------------------------------------------------------------------ a sink registered throughout

  ghost predicate Idle(c: Consumer) {
    c.Starting? || c.Opening? || c.Collecting? || c.Halted?
  }

  /** Sink `id` has been offered everything drained, up to the batch being dispatched. */
  ghost predicate Offered(s: Logger, id: nat)
    requires s.next <= |s.ring| && id < |s.sinks| && s.cached < |s.tables|
  {
    match s.consumer
    case Checking(batch, _) => s.sinks[id].offered + batch == Drained(s)
    case Refreshing(batch, _, _) => s.sinks[id].offered + batch == Drained(s)
    case Dispatching(batch, _, _, at) =>
      && id in s.tables[s.cached] && at <= |s.tables[s.cached]|
      && if id in s.tables[s.cached][..at] then s.sinks[id].offered == Drained(s)
         else s.sinks[id].offered + batch == Drained(s)
    case _ => s.sinks[id].offered == Drained(s)
  }

  /** The bump of the sink's registration precedes any version check in progress. */
  ghost predicate Announced(s: Logger, id: nat)
    requires id < |s.sinks|
  {
    exists i ::
      0 <= i < |s.bumped| && s.bumped[i] == s.sinks[id].born && (s.consumer.Refreshing? ==> i < s.consumer.checked)
  }

  ghost predicate Followed(s: Logger, id: nat) {
    && s.next <= |s.ring| && id < |s.sinks| && s.cached < |s.tables|
    && Offered(s, id) && Announced(s, id)
  }

  /** A sink whose registration returned before anything was logged. */
  ghost predicate RegisteredFirst(s: Logger, id: nat) {
    && id < |s.sinks| && s.sinks[id].born in s.bumped && s.sinks[id].offered == []
    && s.ring == [] && s.dropped == [] && Idle(s.consumer)
  }

  lemma FirstFollowed(s: Logger, id: nat)
    requires RegisteredFirst(s, id) && Registry(s) && RingOk(s)
    ensures Followed(s, id)
  {
  }

  /** A version check leaves the consumer with a table that contains the sink. */
  lemma TableHasSink(s: Logger, id: nat, checked: nat)
    requires Registry(s) && id in Table(s) && Covers(s, checked)
    requires exists i :: 0 <= i < checked && s.bumped[i] == s.sinks[id].born
    ensures id in s.tables[s.cached]
  {
    assert Resident(s, id);
  }

  lemma ThreadFollowed(s: Logger, t: nat, a: Action, s2: Logger, id: nat)
    requires Followed(s, id) && ThreadStep(s, t, a, s2)
    ensures Followed(s2, id)
  {
    ThreadRing(s, t, a, s2);
    ThreadOffers(s, t, a, s2, id);
    assert s2.ring[..s2.next] == s.ring[..s.next];
    assert s2.tables[s.cached] == s.tables[s.cached];
    var i :| 0 <= i < |s.bumped| && s.bumped[i] == s.sinks[id].born
             && (s.consumer.Refreshing? ==> i < s.consumer.checked);
    assert s2.bumped[i] == s.bumped[i];
    hide ThreadStep, Events;
  }

  lemma ThreadOffers(s: Logger, t: nat, a: Action, s2: Logger, id: nat)
    requires id < |s.sinks| && ThreadStep(s, t, a, s2)
    ensures id < |s2.sinks| && s2.sinks[id].offered == s.sinks[id].offered && s2.sinks[id].born == s.sinks[id].born
    ensures s2.cached == s.cached && s.tables <= s2.tables && s.bumped <= s2.bumped
  {
    hide Without;
  }

  lemma CollectFollowed(s: Logger, hi: nat, s2: Logger, id: nat)
    requires Followed(s, id) && s.consumer.Collecting? && Collects(s, hi, s2)
    ensures Followed(s2, id)
  {
    EventsConcat(s.ring[..s.next], s.ring[s.next..hi]);
    assert s.ring[..hi] == s.ring[..s.next] + s.ring[s.next..hi];
    var i :| 0 <= i < |s.bumped| && s.bumped[i] == s.sinks[id].born;
    assert s2.bumped[i] == s.bumped[i];
  }

  lemma DispatchFollowed(s: Logger, hi: nat, s2: Logger, id: nat)
    requires Followed(s, id) && Registry(s) && s.consumer.Dispatching? && ConsumerStep(s, hi, s2)
    ensures Followed(s2, id)
  {
    hide MaxLevel, Events;
    var at, table := s.consumer.at, s.tables[s.cached];
    if at < |table| {
      assert table[..at + 1] == table[..at] + [table[at]];
      assert Distinct(table);
    } else {
      assert table[..at] == table;
    }
    var i :| 0 <= i < |s.bumped| && s.bumped[i] == s.sinks[id].born;
    assert s2.bumped[i] == s.bumped[i];
  }

  lemma CheckFollowed(s: Logger, hi: nat, s2: Logger, id: nat)
    requires Followed(s, id) && Registry(s) && Registry(s2) && id in Table(s) && ConsumerStep(s, hi, s2)
    requires !s.consumer.Collecting? && !s.consumer.Dispatching?
    ensures Followed(s2, id)
  {
    hide Events;
    var i :| 0 <= i < |s.bumped| && s.bumped[i] == s.sinks[id].born
             && (s.consumer.Refreshing? ==> i < s.consumer.checked);
    assert s2.bumped[i] == s.bumped[i] && s2.sinks == s.sinks;
    if s2.consumer.Dispatching? {
      TableHasSink(s2, id, s2.consumer.checked);
    }
  }

  lemma StrandFollowed(s: Logger, q: nat, n: nat, s2: Logger, id: nat)
    requires Followed(s, id) && StrandStep(s, q, n, s2)
    ensures Followed(s2, id)
  {
    hide Book, Events;
    var i :| 0 <= i < |s.bumped| && s.bumped[i] == s.sinks[id].born
             && (s.consumer.Refreshing? ==> i < s.consumer.checked);
    assert s2.bumped[i] == s2.sinks[id].born;
  }

  lemma FollowedNext(s: Logger, s2: Logger, id: nat)
    requires Followed(s, id) && Registry(s) && Registry(s2) && RingOk(s) && id in Table(s) && Next(s, s2)
    ensures Followed(s2, id)
  {
    hide Followed, Registry, RingOk, ThreadStep, StrandStep, Offer;
    if t: nat, a: Action :| ThreadStep(s, t, a, s2) {
      ThreadFollowed(s, t, a, s2, id);
    } else if hi: nat :| ConsumerStep(s, hi, s2) {
      if s.consumer.Collecting? {
        CollectFollowed(s, hi, s2, id);
      } else if s.consumer.Dispatching? {
        DispatchFollowed(s, hi, s2, id);
      } else {
        CheckFollowed(s, hi, s2, id);
      }
    } else {
      var q: nat, n: nat :| StrandStep(s, q, n, s2);
      StrandFollowed(s, q, n, s2, id);
    }
  }

  // ------------------------------------------------------------------ every logged event

  /** The events of threads that passed the gate and have yet to publish. */
  ghost function InFlight(ths: seq<Pc>): multiset<Event> {
    if ths == [] then multiset{}
    else InFlight(ths[..|ths| - 1]) + Carried(ths[|ths| - 1])
  }

  ghost function Carried(pc: Pc): multiset<Event> {
    if pc.Publishing? && pc.item.Entry? then multiset{pc.item.e} else multiset{}
  }

  lemma Swap(a: multiset<Event>, c: multiset<Event>, d: multiset<Event>)
    ensures (a + c) + d == (a + d) + c
  {
  }

  lemma Regroup(a: multiset<Event>, c: multiset<Event>, b: multiset<Event>, d: multiset<Event>, l: multiset<Event>)
    requires a + c == b + d
    ensures (a + l) + c == (b + l) + d
  {
    assert (a + l) + c == (a + c) + l && (b + l) + d == (b + d) + l;
  }

  lemma {:induction false} InFlightUpdate(ths: seq<Pc>, t: nat, pc: Pc)
    requires t < |ths|
    ensures InFlight(ths[t := pc]) + Carried(ths[t]) == InFlight(ths) + Carried(pc)
  {
    hide Carried;
    var k := |ths| - 1;
    if t == k {
      assert ths[t := pc][..k] == ths[..k];
      Swap(InFlight(ths[..k]), Carried(pc), Carried(ths[k]));
    } else {
      assert ths[t := pc][..k] == ths[..k][t := pc];
      InFlightUpdate(ths[..k], t, pc);
      Regroup(InFlight(ths[..k][t := pc]), Carried(ths[t]), InFlight(ths[..k]), Carried(pc), Carried(ths[k]));
    }
  }

  /** Each logged event is in the ring, dropped or in flight, once. */
  ghost predicate LoggedOk(s: Logger) {
    multiset(s.logged) == multiset(Events(s.ring)) + multiset(s.dropped) + InFlight(s.ths)
  }

  /** What enters `logged` equals what moves into the ring, the dropped events or into flight. */
  lemma Flow(l: multiset<Event>, r: multiset<Event>, d: multiset<Event>, f: multiset<Event>, c: multiset<Event>,
             l2: multiset<Event>, r2: multiset<Event>, d2: multiset<Event>, f2: multiset<Event>, c2: multiset<Event>)
    requires l == r + d + f && f2 + c == f + c2 && l2 + r + d + c == l + r2 + d2 + c2
    ensures l2 == r2 + d2 + f2
  {
    forall e ensures l2[e] == r2[e] + d2[e] + f2[e] {
      assert (l2 + r + d + c)[e] == (l + r2 + d2 + c2)[e] && (f2 + c)[e] == (f + c2)[e];
    }
    assert forall e :: l2[e] == (r2 + d2 + f2)[e];
  }

  ghost predicate Flows(s: Logger, t: nat, s2: Logger)
    requires t < |s.ths| == |s2.ths|
  {
    multiset(s2.logged) + multiset(Events(s.ring)) + multiset(s.dropped) + Carried(s.ths[t])
    == multiset(s.logged) + multiset(Events(s2.ring)) + multiset(s2.dropped) + Carried(s2.ths[t])
  }

  lemma PublishFlow(s: Logger, t: nat, a: Action, s2: Logger)
    requires ThreadStep(s, t, a, s2) && s.ths[t].Publishing?
    ensures |s2.ths| == |s.ths| && Flows(s, t, s2)
  {
    assert s2.ring[..|s2.ring| - 1] == s.ring;
    assert multiset(Events(s2.ring)) == multiset(Events(s.ring)) + Carried(s.ths[t]);
  }

  lemma LogFlow(s: Logger, t: nat, a: Action, s2: Logger)
    requires ThreadStep(s, t, a, s2) && s.ths[t].Out? && (a.Log? || a.Report?)
    ensures |s2.ths| == |s.ths| && Flows(s, t, s2)
  {
    hide Events;
    var e := multiset{a.e};
    assert multiset(s2.logged) == multiset(s.logged) + e;
    if s2.dropped == s.dropped {
      assert Carried(s2.ths[t]) == e;
    } else {
      assert multiset(s2.dropped) == multiset(s.dropped) + e;
    }
  }

  lemma ThreadFlow(s: Logger, t: nat, a: Action, s2: Logger)
    requires ThreadStep(s, t, a, s2)
    ensures |s2.ths| == |s.ths| && s2.ths == s.ths[t := s2.ths[t]] && Flows(s, t, s2)
  {
    hide Events;
    if s.ths[t].Publishing? {
      PublishFlow(s, t, a, s2);
    } else if s.ths[t].Out? && (a.Log? || a.Report?) {
      LogFlow(s, t, a, s2);
      hide Flows;
    } else {
      assert s2.ring == s.ring && s2.logged == s.logged && s2.dropped == s.dropped
             && Carried(s2.ths[t]) == Carried(s.ths[t]);
    }
  }

  lemma ThreadLogged(s: Logger, t: nat, a: Action, s2: Logger)
    requires LoggedOk(s) && ThreadStep(s, t, a, s2)
    ensures LoggedOk(s2)
  {
    ThreadFlow(s, t, a, s2);
    InFlightUpdate(s.ths, t, s2.ths[t]);
    hide InFlight, Events, Carried;
    Flow(multiset(s.logged), multiset(Events(s.ring)), multiset(s.dropped), InFlight(s.ths), Carried(s.ths[t]),
         multiset(s2.logged), multiset(Events(s2.ring)), multiset(s2.dropped), InFlight(s2.ths), Carried(s2.ths[t]));
  }

  lemma LoggedNext(s: Logger, s2: Logger)
    requires LoggedOk(s) && Next(s, s2)
    ensures LoggedOk(s2)
  {
    hide LoggedOk, ConsumerStep, StrandStep, ThreadStep;
    if t: nat, a: Action :| ThreadStep(s, t, a, s2) {
      ThreadLogged(s, t, a, s2);
    } else if hi: nat :| ConsumerStep(s, hi, s2) {
      ConsumerRing(s, hi, s2);
      LoggedSame(s, s2);
    } else {
      var id: nat, n: nat :| StrandStep(s, id, n, s2);
      StrandRing(s, id, n, s2);
      InFlightSame(s.ths, s2.ths);
      LoggedSame(s, s2);
    }
  }

  lemma {:induction false} InFlightSame(ths: seq<Pc>, ths2: seq<Pc>)
    requires |ths2| == |ths| && forall t :: 0 <= t < |ths| ==> Carried(ths2[t]) == Carried(ths[t])
    ensures InFlight(ths2) == InFlight(ths)
  {
    if ths != [] {
      InFlightSame(ths[..|ths| - 1], ths2[..|ths| - 1]);
    }
  }

  lemma LoggedSame(s: Logger, s2: Logger)
    requires LoggedOk(s) && s2.ring == s.ring && s2.logged == s.logged && s2.dropped == s.dropped
    requires InFlight(s2.ths) == InFlight(s.ths)
    ensures LoggedOk(s2)
  {
  }

  // ------------------------------------------------------------------ whole runs

  ghost predicate PipelineOk(s: Logger) {
    SinksOk(s) && RingOk(s) && LoggedOk(s)
  }

  lemma {:induction false} PipelineInvariant(r: seq<Logger>, k: nat)
    requires Run(r) && k < |r|
    ensures PipelineOk(r[k])
  {
    if k == 0 {
      NoneInFlight(r[0].ths);
    } else {
      PipelineInvariant(r, k - 1);
      hide SinksOk, RingOk, LoggedOk, Next;
      assert Next(r[k - 1], r[k - 1 + 1]);
      SinksNext(r[k - 1], r[k]);
      RingNext(r[k - 1], r[k]);
      LoggedNext(r[k - 1], r[k]);
    }
  }

  lemma {:induction false} NoneInFlight(ths: seq<Pc>)
    requires forall t :: 0 <= t < |ths| ==> !ths[t].Publishing?
    ensures InFlight(ths) == multiset{}
  {
    if ths != [] {
      NoneInFlight(ths[..|ths| - 1]);
    }
  }

  /** Accounting: in every state of every run, the events that reached a sink are the ones it
      wrote, filtered out or lost, and the ones waiting on its strand, each counted once. */
  lemma SinkAccounts(r: seq<Logger>, k: nat, id: nat)
    requires Run(r) && k < |r| && id < |r[k].sinks|
    ensures var s := r[k].sinks[id];
            multiset(s.offered) == multiset(s.account.written) + multiset(s.account.rejected) + multiset(s.account.lost)
                                   + multiset(Pending(s.queue))
  {
    PipelineInvariant(r, k);
    assert Balanced(r[k].sinks[id]);
  }

  /** From state `j` to state `k`, sink `id` stays registered, keeps its threshold and loses nothing. */
  ghost predicate Undisturbed(r: seq<Logger>, j: nat, k: nat, id: nat) {
    forall i :: j <= i <= k && i < |r| ==>
      id in Table(r[i]) && id < |r[i].sinks| && r[i].sinks[id].fixed && r[i].sinks[id].account.lost == []
  }

  ghost predicate SameSink(a: Logger, b: Logger, id: nat) {
    && id < |a.sinks| && id < |b.sinks|
    && (b.sinks[id].fixed ==> b.sinks[id].threshold == a.sinks[id].threshold && a.sinks[id].fixed)
    && b.sinks[id].filter == a.sinks[id].filter && b.sinks[id].born == a.sinks[id].born
    && |a.bumped| <= |b.bumped| && b.bumped[..|a.bumped|] == a.bumped
  }

  lemma SameSinkThread(s: Logger, t: nat, a: Action, s2: Logger, id: nat)
    requires id < |s.sinks| && ThreadStep(s, t, a, s2)
    ensures SameSink(s, s2, id)
  {
    hide Without;
  }

  lemma SameSinkNext(s: Logger, s2: Logger, id: nat)
    requires id < |s.sinks| && Next(s, s2)
    ensures SameSink(s, s2, id)
  {
    hide Book, MaxLevel, Events, ThreadStep;
    if t: nat, a: Action :| ThreadStep(s, t, a, s2) {
      SameSinkThread(s, t, a, s2, id);
    }
  }

  /** A dropped event is one the gate keeps out, so no undisturbed sink wanted it. */
  lemma DropNext(s: Logger, s2: Logger)
    requires Next(s, s2)
    ensures s2.dropped == s.dropped || exists e: Event :: e.level < s.gate && s2.dropped == s.dropped + [e]
  {
    hide Offer, StrandRuns, Events, Without;
  }

  ghost predicate Unwanted(s: Logger, id: nat, dropped: seq<Event>)
    requires id < |s.sinks|
  {
    forall i :: 0 <= i < |dropped| ==> !ShouldLog(s.sinks[id].threshold, s.sinks[id].filter, dropped[i])
  }

  lemma FirstUnwanted(s: Logger, id: nat)
    requires RegisteredFirst(s, id)
    ensures Unwanted(s, id, s.dropped)
  {
  }

  lemma UndisturbedAt(r: seq<Logger>, j: nat, k: nat, id: nat, i: nat)
    requires Undisturbed(r, j, k, id) && j <= i <= k && i < |r|
    ensures id in Table(r[i]) && id < |r[i].sinks| && r[i].sinks[id].fixed
    ensures Undisturbed(r, j, i, id)
  {
  }

  lemma PromptIsRun(r: seq<Logger>)
    requires PromptRun(r)
    ensures Run(r)
  {
  }

  lemma {:induction false} FollowedThroughout(r: seq<Logger>, j: nat, k: nat, id: nat)
    requires PromptRun(r) && j <= k < |r| && RegisteredFirst(r[j], id) && Undisturbed(r, j, k, id)
    ensures Followed(r[k], id) && Unwanted(r[k], id, r[k].dropped)
    decreases k - j
  {
    hide *;
    PromptIsRun(r);
    RegistryInvariant(r, k);
    PipelineInvariant(r, k);
    if j == k {
      PipelineRing(r[k]);
      FirstFollowed(r[k], id);
      FirstUnwanted(r[k], id);
    } else {
      UndisturbedAt(r, j, k, id, k);
      UndisturbedAt(r, j, k, id, k - 1);
      FollowedThroughout(r, j, k - 1, id);
      RegistryInvariant(r, k - 1);
      PipelineInvariant(r, k - 1);
      RunStep(r, k - 1);
      StepFollowed(r, k, id);
    }
  }

  lemma PipelineRing(s: Logger)
    requires PipelineOk(s)
    ensures RingOk(s)
  {
  }

  lemma StepFollowed(r: seq<Logger>, k: nat, id: nat)
    requires PromptRun(r) && 0 < k < |r| && Next(r[k - 1], r[k])
    requires Registry(r[k - 1]) && Registry(r[k]) && PipelineOk(r[k - 1])
    requires Followed(r[k - 1], id) && Unwanted(r[k - 1], id, r[k - 1].dropped)
    requires id in Table(r[k - 1]) && id < |r[k].sinks| && r[k].sinks[id].fixed
    ensures Followed(r[k], id) && Unwanted(r[k], id, r[k].dropped)
  {
    hide Registry, Next, SinksOk, RingOk, LoggedOk, Prompt;
    var s, s2 := r[k - 1], r[k];
    FollowedNext(s, s2, id);
    SameSinkNext(s, s2, id);
    DropNext(s, s2);
    assert s.sinks[id].born in s.bumped;
    GateAdmits(r, k - 1, id);
  }

  /** The optimised logger agrees with the naive one. For a sink registered before logging
      starts, with a fixed threshold, never removed and losing nothing: whatever it has written
      or has waiting is exactly what its filter selects, in ring order and each once, from the
      events drained so far; and no event that the gate dropped was one it wanted. */
  lemma AgreesWithNaive(r: seq<Logger>, j: nat, k: nat, id: nat)
    requires PromptRun(r) && j <= k < |r| && RegisteredFirst(r[j], id) && Undisturbed(r, j, k, id)
    requires Idle(r[k].consumer)
    ensures id < |r[k].sinks| && r[k].next <= |r[k].ring|
    ensures var s := r[k].sinks[id];
            && s.account.written + Select(s.threshold, s.filter, Pending(s.queue), true)
               == Select(s.threshold, s.filter, Drained(r[k]), true)
            && Unwanted(r[k], id, r[k].dropped)
  {
    FollowedThroughout(r, j, k, id);
    PipelineInvariant(r, k);
    assert Faithful(r[k].sinks[id]);
  }

  /** From state `j` to state `k`, sink `id` stays registered. */
  ghost predicate Registered(r: seq<Logger>, j: nat, k: nat, id: nat) {
    forall i :: j <= i <= k && i < |r| ==> id in Table(r[i])
  }

  lemma {:induction false} OfferedThroughout(r: seq<Logger>, j: nat, k: nat, id: nat)
    requires PromptRun(r) && j <= k < |r| && RegisteredFirst(r[j], id) && Registered(r, j, k, id)
    ensures Followed(r[k], id)
    decreases k - j
  {
    hide *;
    PromptIsRun(r);
    RegistryInvariant(r, k);
    PipelineInvariant(r, k);
    PipelineRing(r[k]);
    if j == k {
      FirstFollowed(r[k], id);
    } else {
      RegisteredAt(r, j, k, id);
      OfferedThroughout(r, j, k - 1, id);
      RegistryInvariant(r, k - 1);
      PipelineInvariant(r, k - 1);
      PipelineRing(r[k - 1]);
      RunStep(r, k - 1);
      FollowedNext(r[k - 1], r[k], id);
    }
  }

  lemma RegisteredAt(r: seq<Logger>, j: nat, k: nat, id: nat)
    requires Registered(r, j, k, id) && j < k < |r|
    ensures Registered(r, j, k - 1, id) && id in Table(r[k - 1])
  {
  }

  /** For a sink registered before logging starts and never removed, the drained events are
      written, filtered out, lost or waiting, each once, even if it dies and recovers. */
  lemma DrainedAccounted(r: seq<Logger>, j: nat, k: nat, id: nat)
    requires PromptRun(r) && j <= k < |r| && RegisteredFirst(r[j], id) && Registered(r, j, k, id) && Idle(r[k].consumer)
    ensures id < |r[k].sinks| && r[k].next <= |r[k].ring|
    ensures multiset(Drained(r[k])) == Total(r[k].sinks[id].account) + multiset(Pending(r[k].sinks[id].queue))
  {
    OfferedThroughout(r, j, k, id);
    PipelineInvariant(r, k);
    assert Balanced(r[k].sinks[id]);
  }
}
