/**
 What the health of a sink means for its events, over whole runs: only a sink that is Dead, or dies
 on a write, loses any, and a Dead one writes none until maintenance revives it.
 */
module LoggerHealth {
  import opened DispatchWord
  import opened LogSink
  import opened LoggerModel
  import opened LoggerFilter

  /** The sink got through the whole batch: the filter decides about each of its events. */
  ghost predicate WentThrough(k: Sink, es: seq<Event>, k2: Sink) {
    && k2.account.written == k.account.written + Select(k.threshold, k.filter, es, true)
    && k2.account.rejected == k.account.rejected + Select(k.threshold, k.filter, es, false)
    && k2.account.lost == k.account.lost
  }

  /** The sink died on event `m`, which it was about to write: what came before went through, the rest is lost. */
  ghost predicate DiedAt(k: Sink, es: seq<Event>, m: nat, k2: Sink) {
    && m < |es| && ShouldLog(k.threshold, k.filter, es[m])
    && k2.account.written == k.account.written + Select(k.threshold, k.filter, es[..m], true)
    && k2.account.rejected == k.account.rejected + Select(k.threshold, k.filter, es[..m], false)
    && k2.account.lost == k.account.lost + es[m..]
  }

  /** A strand runs one task of its sink: a batch on a Dead sink is lost, on a live one it goes through unless a
      write fails, which kills the sink; maintenance leaves a live sink alive and a Dead one Dead or Healthy. */
  lemma StrandExact(s: Logger, id: nat, n: nat, s2: Logger)
    requires StrandStep(s, id, n, s2)
    ensures var k, k2 := s.sinks[id], s2.sinks[id];
            match k.queue[0]
            case Batch(es) =>
              if k.status == Dead then k2.status == Dead && k2.account == k.account.(lost := k.account.lost + es)
              else if k2.status == Dead then DiedAt(k, es, n, k2)
              else WentThrough(k, es, k2)
            case Maintain =>
              && k2.account == k.account
              && (if k.status == Dead then k2.status == Dead || k2.status == Healthy else k2.status != Dead)
            case Flush(_) => k2.account == k.account && k2.status == k.status
  {
    var k := s.sinks[id];
    if k.queue[0].Batch? {
      var es := k.queue[0].es;
      assert es[..|es|] == es && es[|es|..] == [] && es[..0] == [] && es[0..] == es;
    }
  }

  /** A step that adds to the lost events of a sink finds it Dead or leaves it Dead; one that adds to the written
      ones finds it alive; and only maintenance revives a Dead one. */
  ghost predicate LossExplained(k: Sink, k2: Sink) {
    && (k2.account.lost != k.account.lost ==> k.status == Dead || k2.status == Dead)
    && (k2.account.written != k.account.written ==> k.status != Dead)
    && (k.status == Dead && k2.status != Dead ==> k.queue != [] && k.queue[0] == Maintain)
  }

  lemma OfferExplained(k: Sink, batch: seq<Event>)
    ensures LossExplained(k, Offer(k, batch)) && Offer(k, batch).status == k.status
  {
  }

  lemma ThreadExplained(s: Logger, t: nat, a: Action, s2: Logger, id: nat)
    requires ThreadStep(s, t, a, s2) && id < |s.sinks|
    ensures id < |s2.sinks| && LossExplained(s.sinks[id], s2.sinks[id])
  {
    hide Table;
  }

  lemma StrandExplained(s: Logger, q: nat, n: nat, s2: Logger, id: nat)
    requires StrandStep(s, q, n, s2) && id < |s.sinks|
    ensures id < |s2.sinks| && LossExplained(s.sinks[id], s2.sinks[id])
  {
    StrandExact(s, q, n, s2);
    hide Select, StrandRuns;
  }

  lemma ConsumerExplained(s: Logger, hi: nat, s2: Logger, id: nat)
    requires ConsumerStep(s, hi, s2) && id < |s.sinks|
    ensures id < |s2.sinks| && LossExplained(s.sinks[id], s2.sinks[id])
  {
    hide Offer, Events;
    if s.consumer.Dispatching? && s.consumer.at < |s.tables[s.cached]| {
      OfferExplained(s.sinks[s.tables[s.cached][s.consumer.at]], s.consumer.batch);
    }
  }

  lemma NextExplained(s: Logger, s2: Logger, id: nat)
    requires Next(s, s2) && id < |s.sinks|
    ensures id < |s2.sinks| && LossExplained(s.sinks[id], s2.sinks[id])
  {
    hide ThreadStep, ConsumerStep, StrandStep, LossExplained;
    if t: nat, a: Action :| ThreadStep(s, t, a, s2) {
      ThreadExplained(s, t, a, s2, id);
    } else if hi: nat :| ConsumerStep(s, hi, s2) {
      ConsumerExplained(s, hi, s2, id);
    } else {
      var q: nat, n: nat :| StrandStep(s, q, n, s2);
      StrandExplained(s, q, n, s2, id);
    }
  }

  /** In every step of every run. */
  lemma LossNeedsDeath(r: seq<Logger>, k: nat, id: nat)
    requires Run(r) && k + 1 < |r| && id < |r[k].sinks|
    ensures id < |r[k + 1].sinks| && LossExplained(r[k].sinks[id], r[k + 1].sinks[id])
  {
    hide Next, LossExplained;
    NextExplained(r[k], r[k + 1], id);
  }

  lemma NewSink(s: Logger, s2: Logger, id: nat)
    requires Next(s, s2) && |s.sinks| <= id < |s2.sinks|
    ensures s2.sinks[id].account == Account([], [], [])
  {
    hide ThreadStep, Offer, StrandRuns, Events;
    if t: nat, a: Action :| ThreadStep(s, t, a, s2) {
      SinkOfStep(s, t, a, s2, id);
    }
  }

  /** A sink that has not been Dead in any state so far has lost nothing. */
  lemma {:induction false} AliveLosesNothing(r: seq<Logger>, k: nat, id: nat)
    requires Run(r) && k < |r| && id < |r[k].sinks|
    requires forall j :: 0 <= j <= k && id < |r[j].sinks| ==> r[j].sinks[id].status != Dead
    ensures r[k].sinks[id].account.lost == []
    decreases k
  {
    hide Next;
    if k > 0 {
      assert Next(r[k - 1], r[k - 1 + 1]);
      if id < |r[k - 1].sinks| {
        AliveLosesNothing(r, k - 1, id);
        NextExplained(r[k - 1], r[k], id);
      } else {
        NewSink(r[k - 1], r[k], id);
      }
    }
  }
}
