/**
 What a call to the logger has done when it returns, whatever the other threads do meanwhile.
 */
module LoggerCalls {
  import opened Basics
  import opened LogSink
  import opened LoggerModel
  import opened LoggerShutdown

  /** Between states `j` and `k` thread `t` makes one call, from its start to its return. */
  ghost predicate Calls(r: seq<Logger>, j: nat, k: nat, t: nat, a: Action) {
    && Run(r) && j < k < |r| && (forall m :: j <= m <= k ==> t < |r[m].ths|)
    && r[j].ths[t] == Out && ThreadStep(r[j], t, a, r[j + 1]) && r[k].ths[t] == Out
    && (forall m :: j < m < k ==> r[m].ths[t] != Out)
  }

  lemma CallEnds(r: seq<Logger>, j: nat, k: nat, t: nat, a: Action)
    requires Calls(r, j, k, t, a)
    ensures j < k < |r| && t < |r[j].ths| && t < |r[j + 1].ths| && t < |r[k - 1].ths| && t < |r[k].ths|
    ensures r[j].ths[t] == Out && ThreadStep(r[j], t, a, r[j + 1]) && r[k].ths[t] == Out && Next(r[k - 1], r[k])
    ensures r[j + 1].ths[t] == Out <==> k == j + 1
  {
    hide ThreadStep, Next;
    assert Next(r[k - 1], r[k - 1 + 1]);
  }

  ghost predicate Acts(s: Logger, t: nat, s2: Logger) {
    exists a :: ThreadStep(s, t, a, s2)
  }

  /** A step of the consumer, a strand or another thread, as seen by thread `t`: at most a flush is counted down. */
  ghost predicate Bystands(pc: Pc, pc2: Pc) {
    pc2 == pc || (pc.Flushing? && pc2.Flushing?)
  }

  lemma OtherStep(s: Logger, q: nat, a: Action, s2: Logger, t: nat)
    requires ThreadStep(s, q, a, s2) && q != t && t < |s.ths|
    ensures t < |s2.ths| && s2.ths[t] == s.ths[t]
  {
    hide Without;
  }

  lemma StandsBy(s: Logger, s2: Logger, t: nat)
    requires Next(s, s2) && t < |s.ths| && !Acts(s, t, s2)
    ensures t < |s2.ths| && Bystands(s.ths[t], s2.ths[t])
  {
    hide ThreadStep, ConsumerStep, StrandRuns;
    if q: nat, a: Action :| ThreadStep(s, q, a, s2) {
      OtherStep(s, q, a, s2, t);
    } else if hi: nat :| ConsumerStep(s, hi, s2) {
      ConsumerLeaves(s, hi, s2);
    }
  }

  lemma ConsumerLeaves(s: Logger, hi: nat, s2: Logger)
    requires ConsumerStep(s, hi, s2)
    ensures s2.ths == s.ths
  {
    hide Events, Offer;
  }

  // ------------------------------------------------------------------ log

  lemma {:induction false} InLog(r: seq<Logger>, j: nat, m: nat, k: nat, t: nat, a: Action, e: Event)
    requires Calls(r, j, k, t, a) && r[j + 1].ths[t] == Publishing(Entry(e)) && j < m < k
    ensures r[m].ths[t] == Publishing(Entry(e))
    decreases m
  {
    hide ThreadStep;
    if m > j + 1 {
      InLog(r, j, m - 1, k, t, a, e);
      var s, s2 := r[m - 1], r[m];
      assert Next(r[m - 1], r[m - 1 + 1]);
      if b: Action :| ThreadStep(s, t, b, s2) {
        PublishStep(s, t, b, s2);
      } else {
        StandsBy(s, s2, t);
      }
    }
  }

  lemma PublishStep(s: Logger, t: nat, a: Action, s2: Logger)
    requires ThreadStep(s, t, a, s2) && s.ths[t].Publishing?
    ensures s2.ring == s.ring + [s.ths[t].item]
    ensures s2.ths[t] == if s.ths[t].item.Stop? then Joining else Out
  {
  }

  /** A call to log returns at once, its event recorded as dropped, exactly if the level is below the gate; else
      it returns by the step that puts its event at the end of the ring. */
  lemma LogReturns(r: seq<Logger>, j: nat, k: nat, t: nat, e: Event)
    requires Calls(r, j, k, t, Log(e))
    ensures r[j + 1].logged == r[j].logged + [e]
    ensures e.level < r[j].gate ==> k == j + 1 && r[k].ring == r[j].ring && r[k].dropped == r[j].dropped + [e]
    ensures e.level >= r[j].gate ==>
              k > j + 1 && r[k].ring == r[k - 1].ring + [Entry(e)] && r[j + 1].dropped == r[j].dropped
  {
    hide *;
    CallEnds(r, j, k, t, Log(e));
    LogBegins(r[j], t, e, r[j + 1]);
    if e.level >= r[j].gate {
      LogPublishes(r, j, k, t, e);
    }
  }

  lemma LogPublishes(r: seq<Logger>, j: nat, k: nat, t: nat, e: Event)
    requires Calls(r, j, k, t, Log(e)) && r[j + 1].ths[t] == Publishing(Entry(e))
    ensures k > j + 1 && r[k].ring == r[k - 1].ring + [Entry(e)]
  {
    hide *;
    CallEnds(r, j, k, t, Log(e));
    var s, s2 := r[k - 1], r[k];
    assert s.ths[t] == Publishing(Entry(e)) by { InLog(r, j, k - 1, k, t, Log(e), e); }
    LastStep(s, s2, t);
  }

  lemma LogBegins(s: Logger, t: nat, e: Event, s2: Logger)
    requires t < |s.ths| && s.ths[t] == Out && ThreadStep(s, t, Log(e), s2)
    ensures |s2.ths| == |s.ths| && s2.logged == s.logged + [e] && s2.ring == s.ring
    ensures if e.level < s.gate then s2.ths[t] == Out && s2.dropped == s.dropped + [e]
            else s2.ths[t] == Publishing(Entry(e)) && s2.dropped == s.dropped
  {
  }

  lemma LastStep(s: Logger, s2: Logger, t: nat)
    requires t < |s.ths| && t < |s2.ths| && s.ths[t].Publishing? && s2.ths[t] == Out && Next(s, s2)
    ensures s2.ring == s.ring + [s.ths[t].item]
  {
    hide ThreadStep;
    if b: Action :| ThreadStep(s, t, b, s2) {
      PublishStep(s, t, b, s2);
    } else {
      StandsBy(s, s2, t);
    }
  }

  // ------------------------------------------------------------------ shutdown

  /** A sentinel was put into the ring between states `j` and `m`. */
  ghost predicate Signalled(r: seq<Logger>, j: nat, m: nat)
    requires m < |r|
  {
    exists l :: j <= l < m && r[l + 1].ring == r[l].ring + [Stop]
  }

  ghost predicate Closing(r: seq<Logger>, j: nat, m: nat, t: nat)
    requires m < |r|
  {
    && t < |r[m].ths|
    && (|| r[m].ths[t] == Publishing(Stop)
        || ((r[m].ths[t].Joining? || r[m].ths[t].Flushing?) && Signalled(r, j, m)))
  }

  lemma CloseStep(s: Logger, t: nat, a: Action, s2: Logger)
    requires ThreadStep(s, t, a, s2) && (s.ths[t].Joining? || s.ths[t].Flushing?)
    ensures s2.ths[t].Flushing? || (s2.ths[t] == Out && Returns(s, t, s2))
  {
  }

  lemma SignalledStill(r: seq<Logger>, j: nat, m: nat)
    requires m + 1 < |r| && Signalled(r, j, m)
    ensures Signalled(r, j, m + 1)
  {
    var l :| j <= l < m && r[l + 1].ring == r[l].ring + [Stop];
    assert j <= l < m + 1;
  }

  lemma ClosingStep(r: seq<Logger>, j: nat, m: nat, t: nat)
    requires m + 1 < |r| && Next(r[m], r[m + 1]) && j <= m && Closing(r, j, m, t) && t < |r[m + 1].ths|
    ensures Closing(r, j, m + 1, t) || (Returns(r[m], t, r[m + 1]) && Signalled(r, j, m))
  {
    hide ThreadStep, Signalled, Returns;
    if r[m].ths[t] != Publishing(Stop) {
      SignalledStill(r, j, m);
    }
    var s, s2 := r[m], r[m + 1];
    if b: Action :| ThreadStep(s, t, b, s2) {
      if s.ths[t] == Publishing(Stop) {
        PublishStep(s, t, b, s2);
        SignalsNow(r, j, m);
      } else {
        CloseStep(s, t, b, s2);
      }
    } else {
      StandsBy(s, s2, t);
    }
  }

  lemma SignalsNow(r: seq<Logger>, j: nat, m: nat)
    requires j <= m && m + 1 < |r| && r[m + 1].ring == r[m].ring + [Stop]
    ensures Signalled(r, j, m + 1)
  {
  }

  lemma {:induction false} InShutdown(r: seq<Logger>, j: nat, m: nat, k: nat, t: nat)
    requires Calls(r, j, k, t, Shutdown) && r[j + 1].ths[t] == Publishing(Stop) && j < m < k
    ensures Closing(r, j, m, t)
    decreases m
  {
    hide ThreadStep, Signalled;
    if m > j + 1 {
      InShutdown(r, j, m - 1, k, t);
      assert Next(r[m - 1], r[m - 1 + 1]);
      ClosingStep(r, j, m - 1, t);
      if Returns(r[m - 1], t, r[m]) {
        ReturnsOut(r[m - 1], t, r[m]);
      }
    }
  }

  lemma ReturnsOut(s: Logger, t: nat, s2: Logger)
    requires Returns(s, t, s2)
    ensures t < |s2.ths| && s2.ths[t] == Out
  {
  }

  lemma ShutdownBegins(s: Logger, t: nat, s2: Logger)
    requires t < |s.ths| && s.ths[t] == Out && ThreadStep(s, t, Shutdown, s2)
    ensures |s2.ths| == |s.ths| && if Halting(s.consumer) then s2 == s else s2.ths[t] == Publishing(Stop)
  {
  }

  /** A call to shutdown returns at once, changing nothing, if the consumer has met a sentinel; else it has put
      one into the ring and returns by the step that ends its wait for the sinks, of which NothingWaits,
      CompleteAtShutdown and WritesWhatWasLogged speak. */
  lemma ShutdownReturns(r: seq<Logger>, j: nat, k: nat, t: nat)
    requires Calls(r, j, k, t, Shutdown)
    ensures Halting(r[j].consumer) ==> k == j + 1 && r[k] == r[j]
    ensures !Halting(r[j].consumer) ==> k > j + 1 && Signalled(r, j, k) && Returns(r[k - 1], t, r[k])
  {
    hide *;
    CallEnds(r, j, k, t, Shutdown);
    ShutdownBegins(r[j], t, r[j + 1]);
    if !Halting(r[j].consumer) {
      InShutdown(r, j, k - 1, k, t);
      ClosingEnds(r, j, k, t);
    }
  }

  lemma ClosingEnds(r: seq<Logger>, j: nat, k: nat, t: nat)
    requires 0 < k < |r| && j < k && Next(r[k - 1], r[k]) && Closing(r, j, k - 1, t)
    requires t < |r[k].ths| && r[k].ths[t] == Out
    ensures Signalled(r, j, k) && Returns(r[k - 1], t, r[k])
  {
    hide Next, Signalled, Returns;
    ClosingStep(r, j, k - 1, t);
    SignalledStill(r, j, k - 1);
  }
}
