/**
 What the filter of a sink means for its events, over whole runs: in terms of the mode, the set of
 prefixes, the treatment of empty prefixes and the threshold alone.
 */
module LoggerFilter {
  import opened LogSink
  import opened LoggerModel
  import opened LoggerPipeline

  /** While its threshold is fixed, a sink writes what its filter lets through and rejects the rest. */
  ghost predicate KeepsRules(k: Sink) {
    k.fixed ==> Honest(k.threshold, k.filter, k.account)
  }

  ghost predicate AllKeepRules(s: Logger) {
    forall id :: 0 <= id < |s.sinks| ==> KeepsRules(s.sinks[id])
  }

  lemma OfferKeepsRules(k: Sink, batch: seq<Event>)
    requires KeepsRules(k)
    ensures KeepsRules(Offer(k, batch))
  {
    if MaxLevel(batch) < k.threshold {
      forall e | e in batch ensures e.level < k.threshold {
        var i :| 0 <= i < |batch| && batch[i] == e;
        MaxLevelBounds(batch, i);
      }
    }
    hide MaxLevel;
  }

  lemma RunKeepsRules(k: Sink, n: nat, k2: Sink)
    requires KeepsRules(k) && StrandRuns(k, n, k2)
    ensures KeepsRules(k2)
  {
    if k.fixed && k.queue[0].Batch? {
      BookHonest(k.threshold, k.filter, k.account, k.queue[0].es, n);
    }
    hide Book, Honest;
  }

  lemma ThreadKeepsRules(s: Logger, t: nat, a: Action, s2: Logger)
    requires AllKeepRules(s) && ThreadStep(s, t, a, s2)
    ensures AllKeepRules(s2)
  {
    forall id | 0 <= id < |s2.sinks| ensures KeepsRules(s2.sinks[id]) {
      assert id < |s.sinks| ==> KeepsRules(s.sinks[id]);
      SinkOfStep(s, t, a, s2, id);
    }
  }

  /** A step of a thread adds a fresh sink or leaves the account and, if it stays fixed, the
      threshold of every sink alone. */
  lemma SinkOfStep(s: Logger, t: nat, a: Action, s2: Logger, id: nat)
    requires ThreadStep(s, t, a, s2) && id < |s2.sinks|
    ensures if id < |s.sinks| then
              && s2.sinks[id].account == s.sinks[id].account && s2.sinks[id].filter == s.sinks[id].filter
              && (s2.sinks[id].fixed ==> s.sinks[id].fixed && s2.sinks[id].threshold == s.sinks[id].threshold)
            else s2.sinks[id].account == Account([], [], [])
  {
    hide Table;
  }

  lemma RulesNext(s: Logger, s2: Logger)
    requires AllKeepRules(s) && Next(s, s2)
    ensures AllKeepRules(s2)
  {
    hide KeepsRules, ThreadStep, Offer, StrandRuns;
    if t: nat, a: Action :| ThreadStep(s, t, a, s2) {
      ThreadKeepsRules(s, t, a, s2);
    } else if hi: nat :| ConsumerStep(s, hi, s2) {
      if s.consumer.Dispatching? && s.consumer.at < |s.tables[s.cached]| {
        OfferKeepsRules(s.sinks[s.tables[s.cached][s.consumer.at]], s.consumer.batch);
      }
    } else {
      var id: nat, n: nat :| StrandStep(s, id, n, s2);
      RunKeepsRules(s.sinks[id], n, s2.sinks[id]);
    }
  }

  lemma {:induction false} RulesInvariant(r: seq<Logger>, k: nat)
    requires Run(r) && k < |r|
    ensures AllKeepRules(r[k])
  {
    if k > 0 {
      hide AllKeepRules, Next;
      RulesInvariant(r, k - 1);
      assert Next(r[k - 1], r[k - 1 + 1]);
      RulesNext(r[k - 1], r[k]);
    }
  }

  /** A sink with a fixed threshold writes no event below it, no empty prefix it blocks, under an
      allowlist only listed prefixes and under a denylist no listed one; and it rejects an event
      at its threshold or above only if its empty prefix is blocked, it is not on the allowlist,
      or it is on the denylist. */
  lemma FilterHonoured(r: seq<Logger>, k: nat, id: nat, e: Event)
    requires Run(r) && k < |r| && id < |r[k].sinks| && r[k].sinks[id].fixed
    ensures var s := r[k].sinks[id];
            && (e in s.account.written ==>
                  && e.level >= s.threshold && (e.prefix == "" ==> !s.filter.blockEmpty)
                  && (e.prefix != "" && s.filter.mode == Allowlist ==> e.prefix in s.filter.prefixes)
                  && (e.prefix != "" && s.filter.mode == Denylist ==> e.prefix !in s.filter.prefixes))
            && (e in s.account.rejected && e.level >= s.threshold ==>
                  && (e.prefix == "" ==> s.filter.blockEmpty)
                  && (e.prefix != "" ==> s.filter.mode != AllowAll)
                  && (e.prefix != "" && s.filter.mode == Allowlist ==> e.prefix !in s.filter.prefixes)
                  && (e.prefix != "" && s.filter.mode == Denylist ==> e.prefix in s.filter.prefixes))
  {
    RulesInvariant(r, k);
    assert KeepsRules(r[k].sinks[id]);
  }
}
