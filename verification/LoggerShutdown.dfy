/**
 shutdown(): publish the sentinel, wait for the consumer to stop, post a flush to every sink
 and wait until each has run. Strands are serial and nothing is dispatched any more, so when
 the call returns no event is waiting and every accepted event is written.
 */
module LoggerShutdown {
  import opened Basics
  import opened LogSink
  import opened LoggerModel
  import opened LoggerRegistry
  import opened LoggerGate
  import opened LoggerPipeline

  // ------------------------------------------------------------------ the queue of a strand

  /** The flush of thread `t` is in the queue at most once. */
  ghost predicate Once(queue: seq<Task>, t: nat) {
    forall p, q :: 0 <= p < q < |queue| && queue[p] == Flush(t) ==> queue[q] != Flush(t)
  }

  /** Every batch is ahead of the flush of thread `t`. */
  ghost predicate Ahead(queue: seq<Task>, t: nat) {
    forall p :: 0 <= p < |queue| && queue[p].Batch? ==> exists q :: p < q < |queue| && queue[q] == Flush(t)
  }

  lemma AppendTask(queue: seq<Task>, task: Task, t: nat)
    requires Once(queue, t) && task != Flush(t)
    ensures Once(queue + [task], t)
    ensures Flush(t) in queue + [task] <==> Flush(t) in queue
    ensures Ahead(queue, t) && !task.Batch? ==> Ahead(queue + [task], t)
  {
    if Ahead(queue, t) && !task.Batch? {
      forall p | 0 <= p < |queue + [task]| && (queue + [task])[p].Batch?
        ensures exists q :: p < q < |queue + [task]| && (queue + [task])[q] == Flush(t)
      {
        var q :| p < q < |queue| && queue[q] == Flush(t);
        assert (queue + [task])[q] == Flush(t);
      }
    }
  }

  lemma AppendFlush(queue: seq<Task>, t: nat)
    requires Flush(t) !in queue
    ensures Once(queue + [Flush(t)], t) && Flush(t) in queue + [Flush(t)] && Ahead(queue + [Flush(t)], t)
  {
    var more := queue + [Flush(t)];
    assert more[|queue|] == Flush(t);
    assert forall p :: 0 <= p < |more| && more[p].Batch? ==> p < |queue|;
  }

  lemma RunTask(queue: seq<Task>, t: nat)
    requires queue != [] && Once(queue, t)
    ensures Once(queue[1..], t)
    ensures Flush(t) in queue[1..] <==> Flush(t) in queue && queue[0] != Flush(t)
    ensures Ahead(queue, t) ==> Ahead(queue[1..], t)
  {
    if Ahead(queue, t) {
      forall p | 0 <= p < |queue[1..]| && queue[1..][p].Batch?
        ensures exists q :: p < q < |queue[1..]| && queue[1..][q] == Flush(t)
      {
        var q :| p + 1 < q < |queue| && queue[q] == Flush(t);
        assert queue[1..][q - 1] == Flush(t);
      }
    }
  }

  /** Behind a flush that has run there is no batch. */
  lemma {:induction false} NonePending(queue: seq<Task>)
    requires forall p :: 0 <= p < |queue| ==> !queue[p].Batch?
    ensures Pending(queue) == []
  {
    if queue != [] {
      NonePending(queue[1..]);
    }
  }

  // ------------------------------------------------------------------ the flushes of a thread

  /** Sink `id` was sent the flush of the thread at `pc`. */
  ghost predicate Posted(s: Logger, pc: Pc, id: nat) {
    pc.Flushing? && pc.snap < |s.tables| && pc.at <= |s.tables[pc.snap]| && id in s.tables[pc.snap][..pc.at]
  }

  /** The flush of thread `t` waits on sink `id` exactly while it was posted there and is not
      yet counted down, and no batch comes after it. */
  ghost predicate SinkFlush(s: Logger, t: nat, id: nat)
    requires t < |s.ths| && id < |s.sinks|
  {
    var pc, queue := s.ths[t], s.sinks[id].queue;
    && Once(queue, t)
    && (Flush(t) in queue <==> Posted(s, pc, id) && id in pc.left)
    && (Posted(s, pc, id) ==> Ahead(queue, t))
  }

  ghost predicate ThreadFlush(s: Logger, pc: Pc) {
    pc.Flushing? ==>
      && s.consumer.Halted? && pc.snap < |s.tables| && pc.at <= |s.tables[pc.snap]|
      && (forall i :: pc.at <= i < |s.tables[pc.snap]| ==> s.tables[pc.snap][i] in pc.left)
      && forall id :: id in pc.left ==> id in s.tables[pc.snap]
  }

  ghost predicate FlushOk(s: Logger) {
    && (forall t :: 0 <= t < |s.ths| ==> ThreadFlush(s, s.ths[t]))
    && forall t, id :: 0 <= t < |s.ths| && 0 <= id < |s.sinks| ==> SinkFlush(s, t, id)
  }

  // ------------------------------------------------------------------ steps

  /** A thread keeps what it has posted, and tables are only added. */
  ghost predicate SamePosts(s: Logger, s2: Logger, pc: Pc, pc2: Pc) {
    && s.tables <= s2.tables && (s.consumer.Halted? ==> s2.consumer.Halted?)
    && (pc2 == pc || (!pc.Flushing? && !pc2.Flushing?))
  }

  lemma SamePosted(s: Logger, s2: Logger, pc: Pc, pc2: Pc, id: nat)
    requires ThreadFlush(s, pc) && SamePosts(s, s2, pc, pc2)
    ensures ThreadFlush(s2, pc2) && (Posted(s2, pc2, id) <==> Posted(s, pc, id))
  {
    if pc.Flushing? {
      assert s2.tables[pc.snap] == s.tables[pc.snap];
    }
  }

  /** Queues grow by tasks that are no flush, and by batches only while the consumer runs. */
  ghost predicate Grows(s: Logger, queue: seq<Task>, queue2: seq<Task>) {
    || queue2 == queue
    || (|queue2| == |queue| + 1 && queue2[..|queue|] == queue && !queue2[|queue|].Flush?
        && (queue2[|queue|].Batch? ==> !s.consumer.Halted?))
  }

  lemma GrowsKeeps(s: Logger, s2: Logger, t: nat, id: nat)
    requires FlushOk(s) && t < |s.ths| == |s2.ths| && id < |s.sinks| && id < |s2.sinks|
    requires SamePosts(s, s2, s.ths[t], s2.ths[t]) && Grows(s, s.sinks[id].queue, s2.sinks[id].queue)
    ensures SinkFlush(s2, t, id)
  {
    assert ThreadFlush(s, s.ths[t]) && SinkFlush(s, t, id);
    SamePosted(s, s2, s.ths[t], s2.ths[t], id);
    var queue, queue2 := s.sinks[id].queue, s2.sinks[id].queue;
    if queue2 != queue {
      assert queue2 == queue + [queue2[|queue|]];
      AppendTask(queue, queue2[|queue|], t);
    }
    hide Once, Ahead, ThreadFlush;
  }

  /** A step of the consumer, or of a thread that is not flushing before nor after. */
  ghost predicate NoFlush(s: Logger, s2: Logger) {
    && |s2.ths| == |s.ths| && |s.sinks| <= |s2.sinks|
    && (forall t :: 0 <= t < |s.ths| ==> SamePosts(s, s2, s.ths[t], s2.ths[t]))
    && (forall id :: 0 <= id < |s.sinks| ==> Grows(s, s.sinks[id].queue, s2.sinks[id].queue))
    && forall id :: |s.sinks| <= id < |s2.sinks| ==> s2.sinks[id].queue == []
  }

  lemma NoFlushKeeps(s: Logger, s2: Logger)
    requires FlushOk(s) && TablesOk(s) && NoFlush(s, s2)
    ensures FlushOk(s2)
  {
    hide SamePosts, Grows, TablesOk;
    forall t | 0 <= t < |s2.ths| ensures ThreadFlush(s2, s2.ths[t]) {
      assert ThreadFlush(s, s.ths[t]);
      SamePosted(s, s2, s.ths[t], s2.ths[t], 0);
    }
    forall t, id | 0 <= t < |s2.ths| && 0 <= id < |s2.sinks| ensures SinkFlush(s2, t, id) {
      if id < |s.sinks| {
        GrowsKeeps(s, s2, t, id);
      } else {
        NewSinkUnposted(s, s2, t, id);
      }
    }
  }

  lemma IdsBelow(s: Logger, j: nat)
    requires TablesOk(s) && j < |s.tables|
    ensures forall id :: id in s.tables[j] ==> id < |s.sinks|
  {
    forall id | id in s.tables[j] ensures id < |s.sinks| {
      assert Stays(s, id, j);
    }
  }

  /** A sink added later is in no table that is being flushed. */
  lemma NewSinkUnposted(s: Logger, s2: Logger, t: nat, id: nat)
    requires FlushOk(s) && TablesOk(s) && t < |s.ths| == |s2.ths|
    requires |s.sinks| <= id < |s2.sinks| && s2.sinks[id].queue == []
    requires SamePosts(s, s2, s.ths[t], s2.ths[t])
    ensures SinkFlush(s2, t, id)
  {
    assert ThreadFlush(s, s.ths[t]);
    SamePosted(s, s2, s.ths[t], s2.ths[t], id);
    if s.ths[t].Flushing? {
      IdsBelow(s, s.ths[t].snap);
    }
  }

  lemma ConsumerNoFlush(s: Logger, hi: nat, s2: Logger)
    requires ConsumerStep(s, hi, s2)
    ensures NoFlush(s, s2)
  {
    hide MaxLevel, Events;
  }

  lemma ThreadNoFlush(s: Logger, t: nat, a: Action, s2: Logger)
    requires ThreadStep(s, t, a, s2) && !s.ths[t].Flushing? && !s.ths[t].Joining?
    ensures NoFlush(s, s2)
  {
    hide Without;
  }

  /** The thread that takes the snapshot has posted nothing yet. */
  lemma JoinKeeps(s: Logger, t: nat, a: Action, s2: Logger)
    requires FlushOk(s) && ThreadStep(s, t, a, s2) && s.ths[t].Joining?
    ensures FlushOk(s2)
  {
    assert s2.sinks == s.sinks && s2.tables == s.tables && s2.consumer == s.consumer;
    forall q | 0 <= q < |s2.ths| ensures ThreadFlush(s2, s2.ths[q]) {
      assert ThreadFlush(s, s.ths[q]);
    }
    forall q, id | 0 <= q < |s2.ths| && 0 <= id < |s2.sinks| ensures SinkFlush(s2, q, id) {
      assert SinkFlush(s, q, id);
    }
  }

  lemma ReturnKeeps(s: Logger, t: nat, a: Action, s2: Logger)
    requires FlushOk(s) && ThreadStep(s, t, a, s2) && s.ths[t].Flushing? && s2.ths[t] == Out
    ensures FlushOk(s2)
  {
    assert s2.sinks == s.sinks && s2.tables == s.tables && s2.consumer == s.consumer;
    forall q | 0 <= q < |s2.ths| ensures ThreadFlush(s2, s2.ths[q]) {
      assert ThreadFlush(s, s.ths[q]);
    }
    forall q, id | 0 <= q < |s2.ths| && 0 <= id < |s2.sinks| ensures SinkFlush(s2, q, id) {
      assert SinkFlush(s, q, id);
    }
  }

  lemma PostKeeps(s: Logger, t: nat, a: Action, s2: Logger)
    requires FlushOk(s) && TablesOk(s) && ThreadStep(s, t, a, s2) && s.ths[t].Flushing? && s2.ths[t].Flushing?
    ensures FlushOk(s2)
  {
    var pc, table := s.ths[t], s.tables[s.ths[t].snap];
    assert ThreadFlush(s, pc) && pc.at < |table| && s2.tables == s.tables && s2.consumer == s.consumer;
    assert table[..pc.at + 1] == table[..pc.at] + [table[pc.at]];
    forall q | 0 <= q < |s2.ths| ensures ThreadFlush(s2, s2.ths[q]) {
      assert ThreadFlush(s, s.ths[q]);
    }
    forall q, id | 0 <= q < |s2.ths| && 0 <= id < |s2.sinks| ensures SinkFlush(s2, q, id) {
      PostedTo(s, t, a, s2, q, id);
    }
  }

  lemma PostedTo(s: Logger, t: nat, a: Action, s2: Logger, q: nat, id: nat)
    requires FlushOk(s) && TablesOk(s) && ThreadStep(s, t, a, s2) && s.ths[t].Flushing? && s2.ths[t].Flushing?
    requires q < |s2.ths| && id < |s2.sinks|
    ensures SinkFlush(s2, q, id)
  {
    var pc, table := s.ths[t], s.tables[s.ths[t].snap];
    assert ThreadFlush(s, pc) && SinkFlush(s, q, id);
    assert table[..pc.at + 1] == table[..pc.at] + [table[pc.at]];
    var queue := s.sinks[id].queue;
    if id == table[pc.at] {
      assert Distinct(table);
      if q == t {
        assert id !in table[..pc.at];
        AppendFlush(queue, t);
      } else {
        AppendTask(queue, Flush(t), q);
      }
    }
    hide Once, Ahead, TablesOk, FlushOk;
  }

  lemma StrandFlush(s: Logger, id: nat, n: nat, s2: Logger)
    requires FlushOk(s) && TablesOk(s) && StrandStep(s, id, n, s2)
    ensures FlushOk(s2)
  {
    hide Book;
    assert s2.tables == s.tables && s2.consumer == s.consumer && s2.sinks[id].queue == s.sinks[id].queue[1..];
    forall q | 0 <= q < |s2.ths| ensures ThreadFlush(s2, s2.ths[q]) {
      RanFor(s, id, n, s2, q);
    }
    forall q, i | 0 <= q < |s2.ths| && 0 <= i < |s2.sinks| ensures SinkFlush(s2, q, i) {
      RanOn(s, id, n, s2, q, i);
    }
  }

  lemma RanFor(s: Logger, id: nat, n: nat, s2: Logger, q: nat)
    requires FlushOk(s) && TablesOk(s) && StrandStep(s, id, n, s2) && q < |s2.ths|
    ensures ThreadFlush(s2, s2.ths[q])
  {
    var pc, queue := s.ths[q], s.sinks[id].queue;
    assert ThreadFlush(s, pc) && SinkFlush(s, q, id) && queue != [];
    hide StrandRuns, Once, Ahead;
    if queue[0] == Flush(q) && pc.Flushing? {
      assert Flush(q) in queue;
      assert Distinct(s.tables[pc.snap]);
    }
  }

  lemma RanOn(s: Logger, id: nat, n: nat, s2: Logger, q: nat, i: nat)
    requires FlushOk(s) && StrandStep(s, id, n, s2) && q < |s2.ths| && i < |s2.sinks|
    ensures SinkFlush(s2, q, i)
  {
    var queue := s.sinks[id].queue;
    assert SinkFlush(s, q, i) && SinkFlush(s, q, id) && s2.tables == s.tables;
    assert s2.sinks[id].queue == queue[1..];
    hide StrandRuns;
    if queue[0] == Flush(q) {
      assert Flush(q) in queue;
    }
    if i == id {
      RunTask(queue, q);
    }
    hide Once, Ahead, FlushOk;
  }

  lemma FlushNext(s: Logger, s2: Logger)
    requires FlushOk(s) && TablesOk(s) && Next(s, s2)
    ensures FlushOk(s2)
  {
    hide FlushOk, NoFlush, TablesOk, ConsumerStep, StrandStep;
    if t: nat, a: Action :| ThreadStep(s, t, a, s2) {
      if s.ths[t].Joining? {
        JoinKeeps(s, t, a, s2);
      } else if s.ths[t].Flushing? {
        if s2.ths[t].Flushing? {
          PostKeeps(s, t, a, s2);
        } else {
          ReturnKeeps(s, t, a, s2);
        }
      } else {
        ThreadNoFlush(s, t, a, s2);
        NoFlushKeeps(s, s2);
      }
    } else if hi: nat :| ConsumerStep(s, hi, s2) {
      ConsumerNoFlush(s, hi, s2);
      NoFlushKeeps(s, s2);
    } else {
      var id: nat, n: nat :| StrandStep(s, id, n, s2);
      StrandFlush(s, id, n, s2);
    }
  }

  // ------------------------------------------------------------------ whole runs

  lemma {:induction false} FlushInvariant(r: seq<Logger>, k: nat)
    requires Run(r) && k < |r|
    ensures FlushOk(r[k])
  {
    hide *;
    if k == 0 {
      FlushInit(r);
    } else {
      FlushInvariant(r, k - 1);
      CommittedInvariant(r, k - 1);
      CommittedTables(r[k - 1]);
      RunStep(r, k - 1);
      FlushNext(r[k - 1], r[k]);
    }
  }

  lemma FlushInit(r: seq<Logger>)
    requires Run(r)
    ensures FlushOk(r[0])
  {
  }

  /** Every table that is being flushed was taken after the registration of `id`. */
  ghost predicate SnapsSince(s: Logger, id: nat) {
    id < |s.sinks| && forall t :: 0 <= t < |s.ths| && s.ths[t].Flushing? ==> s.sinks[id].born <= s.ths[t].snap
  }

  /** No shutdown can be past the consumer's end while nothing was ever published. */
  lemma NoSnapsYet(s: Logger, id: nat)
    requires RegisteredFirst(s, id) && RingOk(s) && FlushOk(s)
    ensures SnapsSince(s, id)
  {
    forall t | 0 <= t < |s.ths| ensures !s.ths[t].Flushing? {
      assert ThreadFlush(s, s.ths[t]);
    }
  }

  /** Snapshots stay as they are or are taken from the current table. */
  ghost predicate SnapsMove(s: Logger, s2: Logger) {
    forall t :: 0 <= t < |s2.ths| && s2.ths[t].Flushing? ==>
      s2.ths[t].snap == |s.tables| - 1 || (t < |s.ths| && s.ths[t].Flushing? && s2.ths[t].snap == s.ths[t].snap)
  }

  lemma SnapsTaken(s: Logger, t: nat, a: Action, s2: Logger)
    requires ThreadStep(s, t, a, s2)
    ensures SnapsMove(s, s2)
  {
    hide Without, Table;
  }

  lemma SnapsKept(s: Logger, id: nat, n: nat, s2: Logger)
    requires StrandStep(s, id, n, s2)
    ensures SnapsMove(s, s2)
  {
    hide StrandRuns;
  }

  lemma SnapsFrom(s: Logger, s2: Logger, id: nat)
    requires SnapsSince(s, id) && s.tables != [] && Stays(s, id, |s.tables| - 1)
    requires SameSink(s, s2, id) && SnapsMove(s, s2)
    ensures SnapsSince(s2, id)
  {
  }

  lemma SnapsNext(s: Logger, s2: Logger, id: nat)
    requires SnapsSince(s, id) && TablesOk(s) && id in Table(s) && Next(s, s2)
    ensures SnapsSince(s2, id)
  {
    SameSinkNext(s, s2, id);
    assert Stays(s, id, |s.tables| - 1);
    hide TablesOk, Stays, ConsumerStep, StrandStep, ThreadStep, SameSink;
    if t: nat, a: Action :| ThreadStep(s, t, a, s2) {
      SnapsTaken(s, t, a, s2);
    } else if hi: nat :| ConsumerStep(s, hi, s2) {
      ConsumerRing(s, hi, s2);
    } else {
      var q: nat, n: nat :| StrandStep(s, q, n, s2);
      SnapsKept(s, q, n, s2);
    }
    SnapsFrom(s, s2, id);
  }

  lemma {:induction false} SnapsThroughout(r: seq<Logger>, j: nat, k: nat, id: nat)
    requires Run(r) && j <= k < |r| && RegisteredFirst(r[j], id) && Registered(r, j, k, id)
    ensures SnapsSince(r[k], id)
    decreases k - j
  {
    hide *;
    if j == k {
      PipelineInvariant(r, k);
      PipelineRing(r[k]);
      FlushInvariant(r, k);
      NoSnapsYet(r[k], id);
    } else {
      RegisteredAt(r, j, k, id);
      SnapsThroughout(r, j, k - 1, id);
      CommittedInvariant(r, k - 1);
      CommittedTables(r[k - 1]);
      RunStep(r, k - 1);
      SnapsNext(r[k - 1], r[k], id);
    }
  }

  lemma CommittedTables(s: Logger)
    requires Committed(s)
    ensures TablesOk(s)
  {
  }

  /** Thread `t` returns from shutdown(). */
  ghost predicate Returns(s: Logger, t: nat, s2: Logger) {
    t < |s.ths| == |s2.ths| && s.ths[t].Flushing? && s2.ths[t] == Out && exists a :: ThreadStep(s, t, a, s2)
  }

  lemma ReturnIsLast(s: Logger, t: nat, s2: Logger)
    requires Returns(s, t, s2)
    ensures s.ths[t].snap < |s.tables| && s.ths[t].at >= |s.tables[s.ths[t].snap]| && s.ths[t].left == {}
  {
  }

  /** The wait ends exactly when no flush of the thread is left on any strand. */
  lemma WaitIsExact(r: seq<Logger>, k: nat, t: nat)
    requires Run(r) && k < |r| && t < |r[k].ths| && r[k].ths[t].Flushing?
    ensures var s, pc := r[k], r[k].ths[t];
            && pc.snap < |s.tables| && pc.at <= |s.tables[pc.snap]|
            && (pc.at == |s.tables[pc.snap]| ==>
                  (pc.left == {} <==> forall id :: 0 <= id < |s.sinks| ==> Flush(t) !in s.sinks[id].queue))
  {
    FlushInvariant(r, k);
    CommittedInvariant(r, k);
    var s, pc := r[k], r[k].ths[t];
    assert ThreadFlush(s, pc);
    var table := s.tables[pc.snap];
    if pc.at == |table| {
      assert table[..pc.at] == table;
      forall id | id in pc.left ensures id < |s.sinks| && Flush(t) in s.sinks[id].queue {
        assert Stays(s, id, pc.snap) && SinkFlush(s, t, id);
      }
      assert forall id :: 0 <= id < |s.sinks| && Flush(t) in s.sinks[id].queue ==> SinkFlush(s, t, id);
    }
  }

  /** When shutdown() returns, the consumer has stopped and no event waits on a sink that was
      registered before logging started and not removed. */
  lemma NothingWaits(r: seq<Logger>, j: nat, k: nat, t: nat, id: nat)
    requires Run(r) && j <= k < k + 1 < |r| && RegisteredFirst(r[j], id) && Registered(r, j, k, id)
    requires Returns(r[k], t, r[k + 1])
    ensures r[k].consumer.Halted? && id < |r[k].sinks| && Pending(r[k].sinks[id].queue) == []
  {
    SnapsThroughout(r, j, k, id);
    FlushInvariant(r, k);
    CommittedInvariant(r, k);
    ReturnIsLast(r[k], t, r[k + 1]);
    var s, pc := r[k], r[k].ths[t];
    hide Next, Returns;
    assert ThreadFlush(s, pc) && id in Table(s) && Stays(s, id, |s.tables| - 1) && SinkFlush(s, t, id);
    assert s.tables[pc.snap][..pc.at] == s.tables[pc.snap];
    NonePending(s.sinks[id].queue);
  }

  lemma UndisturbedRegistered(r: seq<Logger>, j: nat, k: nat, id: nat)
    requires Undisturbed(r, j, k, id)
    ensures Registered(r, j, k, id)
  {
  }

  lemma SentinelIsNoEvent(ring: seq<Item>, n: nat)
    requires 0 < n <= |ring| && ring[n - 1].Stop?
    ensures Events(ring[..n]) == Events(ring[..n - 1])
  {
    assert ring[..n][..n - 1] == ring[..n - 1];
  }

  /** When shutdown() returns, the sink has written exactly the accepted events before the
      first sentinel, in order. */
  lemma CompleteAtShutdown(r: seq<Logger>, j: nat, k: nat, t: nat, id: nat)
    requires PromptRun(r) && j <= k < k + 1 < |r| && RegisteredFirst(r[j], id) && Undisturbed(r, j, k, id)
    requires Returns(r[k], t, r[k + 1])
    ensures 0 < r[k].next <= |r[k].ring| && r[k].ring[r[k].next - 1].Stop? && id < |r[k].sinks|
    ensures forall i :: 0 <= i < r[k].next - 1 ==> r[k].ring[i].Entry?
    ensures var s := r[k].sinks[id];
            s.account.written == Select(s.threshold, s.filter, Events(r[k].ring[..r[k].next - 1]), true)
  {
    UndisturbedRegistered(r, j, k, id);
    NothingWaits(r, j, k, t, id);
    AgreesWithNaive(r, j, k, id);
    PipelineInvariant(r, k);
    hide Run, Next, Undisturbed, Registered, Returns, SinksOk, LoggedOk;
    SentinelIsNoEvent(r[k].ring, r[k].next);
    SelectNone(r[k].sinks[id].threshold, r[k].sinks[id].filter, []);
    hide Events, Select;
  }

  lemma DropsUnselected(threshold: nat, f: PrefixFilter, logged: seq<Event>, ring: seq<Event>, dropped: seq<Event>)
    requires multiset(logged) == multiset(ring) + multiset(dropped)
    requires forall i :: 0 <= i < |dropped| ==> !ShouldLog(threshold, f, dropped[i])
    ensures multiset(Select(threshold, f, ring, true)) == multiset(Select(threshold, f, logged, true))
  {
    forall e ensures multiset(Select(threshold, f, ring, true))[e] == multiset(Select(threshold, f, logged, true))[e] {
      SelectCount(threshold, f, ring, e);
      SelectCount(threshold, f, logged, e);
      if ShouldLog(threshold, f, e) {
        assert e !in dropped;
        assert e !in multiset(dropped);
      }
    }
  }

  /** If nothing was published after the sentinel and no other call is in flight, the sink has
      written every logged event it accepts, once, and no other. */
  lemma WritesWhatWasLogged(r: seq<Logger>, j: nat, k: nat, t: nat, id: nat)
    requires PromptRun(r) && j <= k < k + 1 < |r| && RegisteredFirst(r[j], id) && Undisturbed(r, j, k, id)
    requires Returns(r[k], t, r[k + 1])
    requires r[k].next == |r[k].ring| && forall q :: 0 <= q < |r[k].ths| ==> !r[k].ths[q].Publishing?
    ensures id < |r[k].sinks|
    ensures var s := r[k].sinks[id];
            multiset(s.account.written) == multiset(Select(s.threshold, s.filter, r[k].logged, true))
  {
    UndisturbedRegistered(r, j, k, id);
    NothingWaits(r, j, k, t, id);
    AgreesWithNaive(r, j, k, id);
    PipelineInvariant(r, k);
    NoneInFlight(r[k].ths);
    hide Run, Next, Undisturbed, Registered, Returns, SinksOk;
    var s := r[k].sinks[id];
    assert r[k].ring[..r[k].next] == r[k].ring;
    SelectNone(s.threshold, s.filter, []);
    DropsUnselected(s.threshold, s.filter, r[k].logged, Events(r[k].ring), r[k].dropped);
  }
}
