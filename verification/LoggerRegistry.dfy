/**
 The registry of sinks: what a returned add_sink or remove_sink means for the consumer, and
 what the level gate is worth.
 */
module LoggerRegistry {
  import opened Basics
  import opened LogSink
  import opened LoggerModel

  // ------------------------------------------------------------------ tables, commits and bumps

  /** Sink `id` is in table `j`, as it has been since the commit that added it. */
  ghost predicate Stays(s: Logger, id: nat, j: nat)
    requires j < |s.tables|
  {
    && id < |s.sinks| && s.sinks[id].born <= j
    && forall i :: s.sinks[id].born <= i <= j ==> id in s.tables[i]
  }

  ghost predicate Resident(s: Logger, id: nat) {
    s.tables != [] && Stays(s, id, |s.tables| - 1)
  }

  /** The commit that added the sink. */
  ghost predicate Founded(s: Logger, id: nat)
    requires id < |s.sinks|
  {
    s.sinks[id].born < |s.tables| && id in s.tables[s.sinks[id].born]
  }

  ghost predicate TablesOk(s: Logger) {
    && s.tables != []
    && (forall j :: 0 <= j < |s.tables| ==> Distinct(s.tables[j]))
    && (forall j, id :: 0 <= j < |s.tables| && id in s.tables[j] ==> Stays(s, id, j))
    && (forall id :: 0 <= id < |s.sinks| ==> Founded(s, id))
  }

  /** One thread holds the lock; a commit is bumped once, after it was made, and the holder's is
      the latest. */
  ghost predicate ThreadOk(s: Logger, t: nat)
    requires t < |s.ths|
  {
    && (s.ths[t].Gating? <==> s.holder == t)
    && (s.ths[t].Gating? && s.ths[t].after.ThenBump? ==>
          && s.ths[t].after.commit == |s.tables| - 1
          && forall i :: 0 <= i < |s.bumped| ==> s.bumped[i] < s.ths[t].after.commit)
    && (s.ths[t].Bumping? ==> s.ths[t].commit < |s.tables|)
    && (s.ths[t].Bumping? && 0 <= s.holder < |s.ths| && s.ths[s.holder].Gating? && s.ths[s.holder].after.ThenBump? ==>
          s.ths[t].commit < |s.tables| - 1)
  }

  ghost predicate BumpsOk(s: Logger) {
    && -1 <= s.holder < |s.ths|
    && (forall i :: 0 <= i < |s.bumped| ==> s.bumped[i] < |s.tables|)
    && forall t :: 0 <= t < |s.ths| ==> ThreadOk(s, t)
  }

  /** The consumer's counts of bumps lie in the past, and its table exists. */
  ghost predicate CountsOk(s: Logger) {
    && s.seen <= |s.bumped| && s.cached < |s.tables|
    && match s.consumer
       case Opening(version) => version <= |s.bumped|
       case Refreshing(_, _, checked) => checked <= |s.bumped|
       case Dispatching(_, _, checked, _) => checked <= |s.bumped|
       case _ => true
  }

  /** What holds of tables, commits and bumps however often the version wraps. */
  ghost predicate Committed(s: Logger) {
    TablesOk(s) && BumpsOk(s) && CountsOk(s)
  }

  /** The commits behind the first `n` bumps are all in the consumer's table. */
  ghost predicate Covers(s: Logger, n: nat) {
    n <= |s.bumped| && s.cached < |s.tables| && forall i :: 0 <= i < n ==> s.bumped[i] <= s.cached
  }

  ghost predicate ConsumerFresh(s: Logger) {
    Covers(s, s.seen) && (s.consumer.Dispatching? ==> Covers(s, s.consumer.checked))
  }

  ghost predicate Registry(s: Logger) {
    Committed(s) && ConsumerFresh(s)
  }

  /** A commit of members of the current table and of sinks new with it. */
  lemma CommitTables(s: Logger, sinks: seq<Sink>, t: nat, table: seq<nat>)
    requires TablesOk(s) && t < |s.ths| && Distinct(table) && s.sinks <= sinks
    requires forall id :: id in table ==> id in Table(s) || |s.sinks| <= id < |sinks|
    requires forall id :: |s.sinks| <= id < |sinks| ==> id in table && sinks[id].born == |s.tables|
    ensures TablesOk(Commit(s.(sinks := sinks), t, table))
  {
    var s2 := Commit(s.(sinks := sinks), t, table);
    forall j, id | 0 <= j < |s2.tables| && id in s2.tables[j] ensures Stays(s2, id, j) {
      var i := if j < |s.tables| then j else j - 1;
      if id < |s.sinks| {
        assert id in s.tables[i] && Stays(s, id, i);
      }
    }
    forall id | 0 <= id < |s2.sinks| ensures Founded(s2, id) {
      assert id < |s.sinks| ==> Founded(s, id);
    }
  }

  lemma CommitBumps(s: Logger, t: nat, table: seq<nat>)
    requires BumpsOk(s) && t < |s.ths| && s.holder == -1 && s.ths[t] == Out
    ensures BumpsOk(Commit(s, t, table))
  {
    var s2 := Commit(s, t, table);
    forall q | 0 <= q < |s2.ths| ensures ThreadOk(s2, q) {
      assert ThreadOk(s, q);
    }
  }

  lemma TableIds(s: Logger)
    requires TablesOk(s)
    ensures Distinct(Table(s)) && Distinct(Table(s) + [|s.sinks|])
    ensures forall a :: 0 <= a < |Table(s)| ==> Table(s)[a] < |s.sinks|
  {
    var table := s.tables[|s.tables| - 1];
    forall a | 0 <= a < |table| ensures table[a] < |s.sinks| {
      assert table[a] in s.tables[|s.tables| - 1];
      assert Stays(s, table[a], |s.tables| - 1);
    }
  }

  lemma AddKeeps(s: Logger, t: nat, k: Sink)
    requires Committed(s) && t < |s.ths| && s.holder == -1 && s.ths[t] == Out && k.born == |s.tables|
    ensures Committed(Commit(s.(sinks := s.sinks + [k]), t, Table(s) + [|s.sinks|]))
  {
    var s1 := s.(sinks := s.sinks + [k]);
    assert forall q :: 0 <= q < |s.ths| ==> ThreadOk(s1, q) == ThreadOk(s, q);
    TableIds(s);
    CommitTables(s, s.sinks + [k], t, Table(s) + [|s.sinks|]);
    CommitBumps(s1, t, Table(s) + [|s.sinks|]);
  }

  lemma RemoveKeeps(s: Logger, t: nat, id: nat)
    requires Committed(s) && t < |s.ths| && s.holder == -1 && s.ths[t] == Out
    ensures Committed(Commit(s, t, Without(Table(s), id)))
  {
    WithoutMembers(Table(s), id);
    CommitTables(s, s.sinks, t, Without(Table(s), id));
    CommitBumps(s, t, Without(Table(s), id));
  }

  /** Steps that commit no table. */
  ghost predicate SameTables(s: Logger, s2: Logger) {
    && s2.tables == s.tables && |s2.sinks| == |s.sinks|
    && forall id :: 0 <= id < |s.sinks| ==> s2.sinks[id].born == s.sinks[id].born
  }

  lemma SameTablesKeeps(s: Logger, s2: Logger)
    requires TablesOk(s) && SameTables(s, s2)
    ensures TablesOk(s2)
  {
    forall j, id | 0 <= j < |s2.tables| && id in s2.tables[j] ensures Stays(s2, id, j) {
      assert Stays(s, id, j);
    }
    forall id | 0 <= id < |s2.sinks| ensures Founded(s2, id) {
      assert Founded(s, id);
    }
  }

  lemma ThreadBumps(s: Logger, t: nat, a: Action, s2: Logger)
    requires BumpsOk(s) && ThreadStep(s, t, a, s2) && s2.tables == s.tables
    ensures BumpsOk(s2) && |s.bumped| <= |s2.bumped| && forall i :: 0 <= i < |s.bumped| ==> s2.bumped[i] == s.bumped[i]
  {
    assert ThreadOk(s, t);
    if s.ths[t].Gating? || s.ths[t].Bumping? {
      CommitEnds(s, t, a, s2);
    } else if s.ths[t].Out? && a.Sweep? {
      SweepBegins(s, t, s2);
    } else {
      PlainStep(s, t, a, s2);
      hide ThreadStep;
      forall q | 0 <= q < |s2.ths| ensures ThreadOk(s2, q) {
        assert ThreadOk(s, q);
      }
    }
  }

  lemma CommitEnds(s: Logger, t: nat, a: Action, s2: Logger)
    requires BumpsOk(s) && ThreadStep(s, t, a, s2) && (s.ths[t].Gating? || s.ths[t].Bumping?)
    ensures BumpsOk(s2) && s.bumped <= s2.bumped
  {
    assert ThreadOk(s, t);
    forall q | 0 <= q < |s2.ths| ensures ThreadOk(s2, q) {
      assert ThreadOk(s, q);
    }
  }

  lemma SweepBegins(s: Logger, t: nat, s2: Logger)
    requires BumpsOk(s) && t < |s.ths| && s.ths[t] == Out && s.holder == -1
    requires s2 == Move(s.(holder := t), t, Gating(0, DROP_ALL, Finish))
    ensures BumpsOk(s2) && s2.bumped == s.bumped
  {
    forall q | 0 <= q < |s2.ths| ensures ThreadOk(s2, q) {
      assert ThreadOk(s, q);
    }
  }

  /** A step that has nothing to do with the registry. */
  lemma PlainStep(s: Logger, t: nat, a: Action, s2: Logger)
    requires ThreadStep(s, t, a, s2) && s2.tables == s.tables && !s.ths[t].Gating? && !s.ths[t].Bumping?
    requires !(s.ths[t].Out? && a.Sweep?)
    ensures s2.holder == s.holder && s2.bumped == s.bumped
    ensures |s2.ths| == |s.ths| && s2.ths == s.ths[t := s2.ths[t]] && !s2.ths[t].Gating? && !s2.ths[t].Bumping?
  {
    hide Without;
  }

  lemma ThreadSameTables(s: Logger, t: nat, a: Action, s2: Logger)
    requires ThreadStep(s, t, a, s2) && (s.ths[t].Out? ==> !a.Add? && (a.Remove? ==> a.id !in Table(s)))
    ensures SameTables(s, s2) && s2.consumer == s.consumer && s2.cached == s.cached && s2.seen == s.seen
  {
  }

  lemma ThreadKeeps(s: Logger, t: nat, a: Action, s2: Logger)
    requires Committed(s) && ThreadStep(s, t, a, s2)
    ensures Committed(s2)
  {
    hide TablesOk, BumpsOk;
    if s.ths[t].Out? && a.Add? {
      AddKeeps(s, t, Sink(a.threshold, a.filter, a.status, [], Account([], [], []), [], |s.tables|, true));
    } else if s.ths[t].Out? && a.Remove? && a.id in Table(s) {
      RemoveKeeps(s, t, a.id);
    } else {
      ThreadSameTables(s, t, a, s2);
      ThreadBumps(s, t, a, s2);
      SameTablesKeeps(s, s2);
      hide ThreadStep, SameTables;
    }
  }

  lemma ConsumerKeeps(s: Logger, hi: nat, s2: Logger)
    requires Committed(s) && ConsumerStep(s, hi, s2)
    ensures Committed(s2)
  {
    ConsumerSameTables(s, hi, s2);
    SameTablesKeeps(s, s2);
    SameBumps(s, s2);
    hide TablesOk, BumpsOk, SameTables;
  }

  lemma ConsumerSameTables(s: Logger, hi: nat, s2: Logger)
    requires ConsumerStep(s, hi, s2)
    ensures SameTables(s, s2) && s2.ths == s.ths && s2.holder == s.holder && s2.bumped == s.bumped
  {
    hide MaxLevel, Events;
  }

  lemma SameBumps(s: Logger, s2: Logger)
    requires BumpsOk(s) && s2.tables == s.tables && s2.ths == s.ths && s2.holder == s.holder && s2.bumped == s.bumped
    ensures BumpsOk(s2)
  {
    forall q | 0 <= q < |s2.ths| ensures ThreadOk(s2, q) {
      assert ThreadOk(s, q);
    }
  }

  lemma StrandKeeps(s: Logger, id: nat, n: nat, s2: Logger)
    requires Committed(s) && StrandStep(s, id, n, s2)
    ensures Committed(s2)
  {
    hide Book;
    SameTablesKeeps(s, s2);
    forall q | 0 <= q < |s2.ths| ensures ThreadOk(s2, q) {
      assert ThreadOk(s, q);
    }
  }

  lemma CommittedNext(s: Logger, s2: Logger)
    requires Committed(s) && Next(s, s2)
    ensures Committed(s2)
  {
    hide Committed, ThreadStep, ConsumerStep, StrandStep;
    if t: nat, a: Action :| ThreadStep(s, t, a, s2) {
      ThreadKeeps(s, t, a, s2);
    } else if hi: nat :| ConsumerStep(s, hi, s2) {
      ConsumerKeeps(s, hi, s2);
    } else {
      var id: nat, n: nat :| StrandStep(s, id, n, s2);
      StrandKeeps(s, id, n, s2);
    }
  }

  /** Tables, commits and bumps are consistent in every state of every run. */
  lemma {:induction false} CommittedInvariant(r: seq<Logger>, k: nat)
    requires Run(r) && k < |r|
    ensures Committed(r[k])
  {
    hide Committed, Next;
    if k == 0 {
      RegistryInit(r[0]);
    } else {
      CommittedInvariant(r, k - 1);
      assert Next(r[k - 1], r[k - 1 + 1]);
      CommittedNext(r[k - 1], r[k]);
    }
  }

  lemma RegistryInit(s: Logger)
    requires Init(s)
    ensures Committed(s) && ConsumerFresh(s)
  {
  }

  // ------------------------------------------------------------------ freshness

  /** Steps of threads and strands leave the consumer's table and counts alone. */
  lemma ThreadFresh(s: Logger, t: nat, a: Action, s2: Logger)
    requires ConsumerFresh(s) && ThreadStep(s, t, a, s2)
    ensures ConsumerFresh(s2)
  {
    hide Without;
  }

  lemma StrandFresh(s: Logger, id: nat, n: nat, s2: Logger)
    requires ConsumerFresh(s) && StrandStep(s, id, n, s2)
    ensures ConsumerFresh(s2)
  {
    hide StrandRuns;
  }

  lemma SameVersion(a: nat, b: nat)
    requires b <= a
    ensures Version(a) == Version(b) <==> (a - b) % TWO_32 == 0
  {
  }

  lemma ConsumerRefreshes(s: Logger, hi: nat, s2: Logger)
    requires Committed(s) && ConsumerFresh(s) && Prompt(s) && ConsumerStep(s, hi, s2)
    ensures ConsumerFresh(s2)
  {
    hide TablesOk, MaxLevel, Events, Version;
    SameVersion(|s.bumped|, s.seen);
  }

  lemma FreshNext(s: Logger, s2: Logger)
    requires Registry(s) && Prompt(s) && Next(s, s2)
    ensures ConsumerFresh(s2)
  {
    hide Committed, ConsumerFresh, ThreadStep, ConsumerStep, StrandStep, Prompt;
    if t: nat, a: Action :| ThreadStep(s, t, a, s2) {
      ThreadFresh(s, t, a, s2);
    } else if hi: nat :| ConsumerStep(s, hi, s2) {
      ConsumerRefreshes(s, hi, s2);
    } else {
      var id: nat, n: nat :| StrandStep(s, id, n, s2);
      StrandFresh(s, id, n, s2);
    }
  }

  /** The 32-bit version exactly: a check goes on with the table it has although there were bumps
      since its version if and only if their number is a nonzero multiple of 2^32. */
  lemma CheckMissesIff(r: seq<Logger>, k: nat, hi: nat)
    requires Run(r) && k + 1 < |r| && r[k].consumer.Checking? && ConsumerStep(r[k], hi, r[k + 1])
    ensures var bumps := |r[k].bumped| - r[k].seen;
            && bumps >= 0
            && (r[k + 1].consumer.Dispatching? && bumps != 0 <==> bumps != 0 && bumps % TWO_32 == 0)
            && (Prompt(r[k]) <==> r[k + 1].consumer.Refreshing? || bumps == 0)
  {
    CommittedInvariant(r, k);
    hide Run, TablesOk, BumpsOk, Version;
    SameVersion(|r[k].bumped|, r[k].seen);
  }

  ghost predicate PromptRun(r: seq<Logger>) {
    Run(r) && forall k :: 0 <= k < |r| ==> Prompt(r[k])
  }

  lemma {:induction false} RegistryInvariant(r: seq<Logger>, k: nat)
    requires PromptRun(r) && k < |r|
    ensures Registry(r[k])
  {
    hide Committed, ConsumerFresh, Next, Prompt;
    CommittedInvariant(r, k);
    if k == 0 {
      RegistryInit(r[0]);
    } else {
      RegistryInvariant(r, k - 1);
      assert Prompt(r[k - 1]) && Next(r[k - 1], r[k - 1 + 1]);
      FreshNext(r[k - 1], r[k]);
    }
  }

  /** add_sink puts one new sink, as given and with nothing behind it, at the end of the table. */
  lemma AddAppends(s: Logger, t: nat, a: Action, s2: Logger)
    requires TablesOk(s) && t < |s.ths| && s.ths[t] == Out && a.Add? && ThreadStep(s, t, a, s2)
    ensures |s2.sinks| == |s.sinks| + 1 && s2.sinks[..|s.sinks|] == s.sinks
    ensures Table(s2) == Table(s) + [|s.sinks|] && |s.sinks| !in Table(s) && |s2.tables| == |s.tables| + 1
    ensures var k := s2.sinks[|s.sinks|];
            && k.threshold == a.threshold && k.filter == a.filter && k.status == a.status && k.born == |s.tables|
            && k.queue == [] && k.offered == k.account.written == k.account.rejected == k.account.lost == []
  {
    TableIds(s);
  }

  /** remove_sink takes exactly the given sink out and keeps the others in order; a sink that is
      not registered changes nothing. */
  lemma RemoveTakesOut(s: Logger, t: nat, id: nat, s2: Logger)
    requires TablesOk(s) && t < |s.ths| && s.ths[t] == Out && ThreadStep(s, t, Remove(id), s2)
    ensures id !in Table(s) ==> s2 == s
    ensures id in Table(s) ==>
              && |s2.tables| == |s.tables| + 1 && id !in Table(s2) && s2.sinks == s.sinks
              && exists k :: 0 <= k < |Table(s)| && Table(s)[k] == id && Table(s2) == Table(s)[..k] + Table(s)[k + 1..]
  {
    if id in Table(s) {
      TableIds(s);
      WithoutMembers(Table(s), id);
      var k := WithoutIs(Table(s), id);
    }
  }

  /** Commit `c` removed sink `id`. */
  ghost predicate Removes(s: Logger, c: nat, id: nat)
    requires c < |s.tables|
  {
    0 < c && id in s.tables[c - 1] && id !in s.tables[c]
  }

  /** A sink is in a table from the commit that added it until one removed it, for good. */
  lemma {:induction false} InTableIff(s: Logger, id: nat, j: nat)
    requires TablesOk(s) && id < |s.sinks| && j < |s.tables|
    ensures id in s.tables[j] <==> s.sinks[id].born <= j && !exists c :: s.sinks[id].born < c <= j && Removes(s, c, id)
    decreases j
  {
    assert Founded(s, id);
    if id in s.tables[j] {
      assert Stays(s, id, j);
    } else if s.sinks[id].born < j {
      InTableIff(s, id, j - 1);
      assert id in s.tables[j - 1] ==> Removes(s, j, id);
    }
  }

  /** Freshness: at every dispatch the consumer's table includes each commit whose version bump
      came before the version check. So a sink removed by such a commit is not in it, and one
      added by it is, unless removed again up to the table taken. */
  lemma DispatchIsFresh(r: seq<Logger>, k: nat, i: nat, id: nat)
    requires PromptRun(r) && k < |r| && r[k].consumer.Dispatching? && i < r[k].consumer.checked && id < |r[k].sinks|
    ensures i < |r[k].bumped| && r[k].bumped[i] <= r[k].cached < |r[k].tables|
    ensures var s := r[k];
            && (Removes(s, s.bumped[i], id) ==> id !in s.tables[s.cached])
            && (s.sinks[id].born == s.bumped[i] ==>
                  (id in s.tables[s.cached] <==> !exists c :: s.bumped[i] < c <= s.cached && Removes(s, c, id)))
  {
    RegistryInvariant(r, k);
    var s := r[k];
    InTableIff(s, id, s.cached);
    if Removes(s, s.bumped[i], id) {
      assert Stays(s, id, s.bumped[i] - 1);
    }
  }
}
