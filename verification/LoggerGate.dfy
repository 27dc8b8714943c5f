/**
 The level gate. While thresholds are fixed it equals the minimum over the current table
 whenever the registry lock is free; and once a sink's registration has published it, the
 gate never exceeds that sink's threshold, whatever happens to the others.
 */
module LoggerGate {
  import opened Basics
  import opened LogSink
  import opened LoggerModel
  import opened LoggerRegistry

  /** The least threshold of the first `n` sinks of a table. */
  function MinOver(sinks: seq<Sink>, table: seq<nat>, n: nat): nat
    requires n <= |table| && forall j :: 0 <= j < |table| ==> table[j] < |sinks|
  {
    if n == 0 then DROP_ALL
    else
      var m, level := MinOver(sinks, table, n - 1), sinks[table[n - 1]].threshold;
      if level < m then level else m
  }

  lemma {:induction false} MinOverSame(a: seq<Sink>, b: seq<Sink>, table: seq<nat>, n: nat)
    requires n <= |table| && forall j :: 0 <= j < |table| ==> table[j] < |a| && table[j] < |b|
    requires forall j :: 0 <= j < |table| ==> a[table[j]].threshold == b[table[j]].threshold
    ensures MinOver(a, table, n) == MinOver(b, table, n)
  {
    if n > 0 {
      MinOverSame(a, b, table, n - 1);
    }
  }

  ghost predicate AllFixed(s: Logger) {
    forall id :: 0 <= id < |s.sinks| ==> s.sinks[id].fixed
  }

  ghost predicate InRange(s: Logger) {
    forall j :: 0 <= j < |Table(s)| ==> Table(s)[j] < |s.sinks|
  }

  lemma TableInRange(s: Logger)
    requires TablesOk(s)
    ensures InRange(s)
  {
    TableIds(s);
  }

  /** The partial minimum of a thread computing the gate. */
  ghost predicate ScanOk(s: Logger, pc: Pc)
    requires InRange(s)
  {
    pc.Gating? ==>
      && pc.at <= |Table(s)|
      && (AllFixed(s) ==> pc.min == MinOver(s.sinks, Table(s), pc.at))
      && forall j :: 0 <= j < pc.at && s.sinks[Table(s)[j]].fixed ==> pc.min <= s.sinks[Table(s)[j]].threshold
  }

  /** The registration of `id` is still computing its gate. */
  ghost predicate Excused(s: Logger, id: nat) {
    && 0 <= s.holder < |s.ths| && s.ths[s.holder].Gating? && id < |s.sinks|
    && s.ths[s.holder].after == ThenBump(s.sinks[id].born)
  }

  ghost predicate Admits(s: Logger, id: nat) {
    id < |s.sinks| && s.sinks[id].fixed && !Excused(s, id) ==> s.gate <= s.sinks[id].threshold
  }

  ghost predicate GateOk(s: Logger) {
    && InRange(s)
    && (forall t :: 0 <= t < |s.ths| ==> ScanOk(s, s.ths[t]))
    && (AllFixed(s) && s.holder == -1 ==> s.gate == MinOver(s.sinks, Table(s), |Table(s)|))
    && (forall id :: id in Table(s) ==> Admits(s, id))
  }

  // ------------------------------------------------------------------ steps

  /** Steps that leave tables, levels, the gate and the lock alone. */
  ghost predicate SameLevels(s: Logger, s2: Logger) {
    && s2.tables == s.tables && s2.gate == s.gate && s2.holder == s.holder
    && |s2.sinks| == |s.sinks| && |s2.ths| == |s.ths|
    && (forall id :: 0 <= id < |s.sinks| ==>
          && s2.sinks[id].threshold == s.sinks[id].threshold && s2.sinks[id].fixed == s.sinks[id].fixed
          && s2.sinks[id].born == s.sinks[id].born)
    && forall t :: 0 <= t < |s.ths| ==> s2.ths[t] == s.ths[t] || (!s2.ths[t].Gating? && !s.ths[t].Gating?)
  }

  lemma SameLevelsKeeps(s: Logger, s2: Logger)
    requires GateOk(s) && SameLevels(s, s2) && (s.holder >= 0 ==> s.holder < |s.ths| && s.ths[s.holder].Gating?)
    ensures GateOk(s2)
  {
    assert AllFixed(s2) == AllFixed(s);
    MinOverSame(s.sinks, s2.sinks, Table(s), |Table(s)|);
    forall t | 0 <= t < |s2.ths| ensures ScanOk(s2, s2.ths[t]) {
      assert ScanOk(s, s.ths[t]);
      if s2.ths[t].Gating? {
        MinOverSame(s.sinks, s2.sinks, Table(s), s2.ths[t].at);
      }
    }
    forall id | id in Table(s2) ensures Admits(s2, id) {
      assert Admits(s, id) && Excused(s2, id) == Excused(s, id);
    }
  }

  /** A table is committed, or a sweep begins: the holder starts from an empty minimum. */
  lemma LockKeeps(s: Logger, t: nat, s2: Logger)
    requires Committed(s) && Committed(s2) && GateOk(s) && t < |s.ths| && s.holder == -1 && s2.gate == s.gate
    requires s2.holder == t && s2.ths == s.ths[t := s2.ths[t]]
    requires s2.ths[t].Gating? && s2.ths[t].at == 0 && s2.ths[t].min == DROP_ALL
    requires s.sinks <= s2.sinks
    requires forall id :: id in Table(s2) ==>
               id in Table(s) || (id < |s2.sinks| && s2.ths[t].after == ThenBump(s2.sinks[id].born))
    ensures GateOk(s2)
  {
    TableInRange(s2);
    forall q | 0 <= q < |s2.ths| ensures ScanOk(s2, s2.ths[q]) {
      assert ThreadOk(s, q);
    }
    forall id | id in Table(s2) ensures Admits(s2, id) {
      if id in Table(s) {
        assert Admits(s, id) && Resident(s, id);
      }
    }
  }

  /** One more sink goes into the partial minimum. */
  lemma GateScans(s: Logger, t: nat, pc: Pc)
    requires GateOk(s) && BumpsOk(s) && t < |s.ths| && s.ths[t].Gating? && s.ths[t].at < |Table(s)|
    requires var level := s.sinks[Table(s)[s.ths[t].at]].threshold;
             pc == Gating(s.ths[t].at + 1, if level < s.ths[t].min then level else s.ths[t].min, s.ths[t].after)
    ensures GateOk(Move(s, t, pc))
  {
    var s2 := Move(s, t, pc);
    assert ThreadOk(s, t) && ScanOk(s, s.ths[t]);
    assert Table(s2) == Table(s) && AllFixed(s2) == AllFixed(s);
    forall q | 0 <= q < |s2.ths| ensures ScanOk(s2, s2.ths[q]) {
      assert ScanOk(s, s.ths[q]);
    }
    forall id | id in Table(s2) ensures Admits(s2, id) {
      assert Admits(s, id) && Excused(s2, id) == Excused(s, id);
    }
  }

  /** The minimum is published and the lock released. */
  lemma GatePublishes(s: Logger, t: nat, pc: Pc)
    requires GateOk(s) && BumpsOk(s) && t < |s.ths| && s.ths[t].Gating? && s.ths[t].at >= |Table(s)| && !pc.Gating?
    ensures GateOk(Move(s.(gate := s.ths[t].min, holder := -1), t, pc))
  {
    var s2 := Move(s.(gate := s.ths[t].min, holder := -1), t, pc);
    assert ScanOk(s, s.ths[t]) && s.ths[t].at == |Table(s)|;
    assert Table(s2) == Table(s) && AllFixed(s2) == AllFixed(s);
    forall q | 0 <= q < |s2.ths| ensures ScanOk(s2, s2.ths[q]) {
      assert ScanOk(s, s.ths[q]);
    }
    hide MinOver;
    forall id | id in Table(s2) ensures Admits(s2, id) {
      var j :| 0 <= j < |Table(s)| && Table(s)[j] == id;
    }
  }

  lemma GatingKeeps(s: Logger, t: nat, a: Action, s2: Logger)
    requires Committed(s) && GateOk(s) && t < |s.ths| && s.ths[t].Gating? && ThreadStep(s, t, a, s2)
    ensures GateOk(s2)
  {
    hide GateOk, BumpsOk;
    if s.ths[t].at < |Table(s)| {
      GateScans(s, t, s2.ths[t]);
    } else {
      GatePublishes(s, t, s2.ths[t]);
    }
  }

  lemma SetThresholdKeeps(s: Logger, id: nat, level: nat)
    requires GateOk(s) && id < |s.sinks|
    ensures GateOk(SetSink(s, id, s.sinks[id].(threshold := level, fixed := false)))
  {
    var s2 := SetSink(s, id, s.sinks[id].(threshold := level, fixed := false));
    assert Table(s2) == Table(s) && InRange(s2) && !s2.sinks[id].fixed;
    forall q | 0 <= q < |s2.ths| ensures ScanOk(s2, s2.ths[q]) {
      assert ScanOk(s, s.ths[q]);
    }
    forall i | i in Table(s2) ensures Admits(s2, i) {
      assert Admits(s, i);
      assert Excused(s2, i) == Excused(s, i);
    }
  }

  lemma HolderGates(s: Logger)
    requires BumpsOk(s) && s.holder >= 0
    ensures s.holder < |s.ths| && s.ths[s.holder].Gating?
  {
    assert ThreadOk(s, s.holder);
  }

  lemma ThreadGate(s: Logger, t: nat, a: Action, s2: Logger)
    requires Committed(s) && GateOk(s) && Committed(s2) && ThreadStep(s, t, a, s2)
    ensures GateOk(s2)
  {
    hide GateOk, Committed, Resident;
    if s.ths[t].Gating? {
      GatingKeeps(s, t, a, s2);
    } else if s.ths[t].Out? && (a.Add? || a.Sweep?) {
      LockKeeps(s, t, s2);
    } else if s.ths[t].Out? && a.Remove? && a.id in Table(s) {
      RemovedFrom(s, a.id);
      LockKeeps(s, t, s2);
    } else if s.ths[t].Out? && a.SetThreshold? {
      SetThresholdKeeps(s, a.id, a.level);
    } else {
      HolderOk(s);
      SameLevelsKeeps(s, s2);
    }
  }

  lemma RemovedFrom(s: Logger, id: nat)
    requires Committed(s)
    ensures forall x :: x in Without(Table(s), id) ==> x in Table(s)
  {
    WithoutMembers(Table(s), id);
  }

  lemma HolderOk(s: Logger)
    requires Committed(s)
    ensures s.holder >= 0 ==> s.holder < |s.ths| && s.ths[s.holder].Gating?
  {
    if s.holder >= 0 {
      HolderGates(s);
    }
  }

  lemma GateNext(s: Logger, s2: Logger)
    requires Committed(s) && Committed(s2) && GateOk(s) && Next(s, s2)
    ensures GateOk(s2)
  {
    hide Committed, GateOk, ThreadStep, ConsumerStep, StrandStep, SameLevels;
    HolderOk(s);
    if t: nat, a: Action :| ThreadStep(s, t, a, s2) {
      ThreadGate(s, t, a, s2);
    } else if hi: nat :| ConsumerStep(s, hi, s2) {
      ConsumerLevels(s, hi, s2);
      SameLevelsKeeps(s, s2);
    } else {
      var id: nat, n: nat :| StrandStep(s, id, n, s2);
      StrandLevels(s, id, n, s2);
      SameLevelsKeeps(s, s2);
    }
  }

  lemma ConsumerLevels(s: Logger, hi: nat, s2: Logger)
    requires ConsumerStep(s, hi, s2)
    ensures SameLevels(s, s2)
  {
    hide MaxLevel, Events;
  }

  lemma StrandLevels(s: Logger, id: nat, n: nat, s2: Logger)
    requires StrandStep(s, id, n, s2)
    ensures SameLevels(s, s2)
  {
    hide Book;
  }

  lemma {:induction false} GateInvariant(r: seq<Logger>, k: nat)
    requires Run(r) && k < |r|
    ensures GateOk(r[k])
  {
    hide *;
    if k == 0 {
      GateInit(r);
    } else {
      GateInvariant(r, k - 1);
      CommittedInvariant(r, k - 1);
      CommittedInvariant(r, k);
      RunStep(r, k - 1);
      GateNext(r[k - 1], r[k]);
    }
  }

  lemma GateInit(r: seq<Logger>)
    requires Run(r)
    ensures GateOk(r[0])
  {
  }

  lemma RunStep(r: seq<Logger>, k: nat)
    requires Run(r) && k + 1 < |r|
    ensures Next(r[k], r[k + 1])
  {
  }

  /** With fixed thresholds the gate is the minimum over the current table whenever the
      registry lock is free. */
  lemma GateIsMinimum(r: seq<Logger>, k: nat)
    requires Run(r) && k < |r| && AllFixed(r[k]) && r[k].holder == -1
    ensures InRange(r[k]) && r[k].gate == MinOver(r[k].sinks, Table(r[k]), |Table(r[k])|)
  {
    GateInvariant(r, k);
  }

  /** Once the registration of a sink returned, the gate lets through all that the sink wants. */
  lemma GateAdmits(r: seq<Logger>, k: nat, id: nat)
    requires Run(r) && k < |r| && id in Table(r[k]) && id < |r[k].sinks|
    requires r[k].sinks[id].fixed && r[k].sinks[id].born in r[k].bumped
    ensures r[k].gate <= r[k].sinks[id].threshold
  {
    GateInvariant(r, k);
    CommittedInvariant(r, k);
    var s := r[k];
    assert Admits(s, id);
    if s.holder >= 0 {
      assert ThreadOk(s, s.holder);
    }
  }
}
