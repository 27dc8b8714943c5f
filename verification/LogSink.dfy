/** Log events, the filter of a sink, and what becomes of a batch a sink is given. */
module LogSink {
  datatype Event = Event(level: nat, prefix: string, message: nat)

  datatype FilterMode = AllowAll | Allowlist | Denylist

  datatype PrefixFilter = PrefixFilter(mode: FilterMode, prefixes: set<string>, blockEmpty: bool)

  predicate AcceptsPrefix(f: PrefixFilter, prefix: string) {
    if prefix == "" then !f.blockEmpty
    else
      match f.mode
      case AllowAll => true
      case Allowlist => prefix in f.prefixes
      case Denylist => prefix !in f.prefixes
  }

  predicate ShouldLog(threshold: nat, f: PrefixFilter, e: Event) {
    e.level >= threshold && AcceptsPrefix(f, e.prefix)
  }

  /** The events of `es` the sink would write (`want`), or would not. */
  function Select(threshold: nat, f: PrefixFilter, es: seq<Event>, want: bool): seq<Event> {
    if es == [] then []
    else
      var rest := Select(threshold, f, es[..|es| - 1], want);
      if ShouldLog(threshold, f, es[|es| - 1]) == want then rest + [es[|es| - 1]] else rest
  }

  lemma {:induction false} SelectConcat(threshold: nat, f: PrefixFilter, a: seq<Event>, b: seq<Event>, want: bool)
    ensures Select(threshold, f, a + b, want) == Select(threshold, f, a, want) + Select(threshold, f, b, want)
  {
    if b == [] {
      assert a + b == a;
    } else {
      var k := |b| - 1;
      assert (a + b)[..|a + b| - 1] == a + b[..k];
      SelectConcat(threshold, f, a, b[..k], want);
    }
  }

  /** Every event is selected once, one way or the other. */
  lemma PartitionGrows(yes: seq<Event>, no: seq<Event>, es: seq<Event>, e: Event)
    requires multiset(yes) + multiset(no) == multiset(es)
    ensures multiset(yes + [e]) + multiset(no) == multiset(es + [e]) == multiset(yes) + multiset(no + [e])
  {
    assert multiset(yes + [e]) == multiset(yes) + multiset{e};
    assert multiset(no + [e]) == multiset(no) + multiset{e};
    assert multiset(es + [e]) == multiset(es) + multiset{e};
  }

  lemma {:induction false} SelectPartition(threshold: nat, f: PrefixFilter, es: seq<Event>)
    ensures multiset(Select(threshold, f, es, true)) + multiset(Select(threshold, f, es, false)) == multiset(es)
  {
    if es != [] {
      var k := |es| - 1;
      SelectPartition(threshold, f, es[..k]);
      assert es == es[..k] + [es[k]];
      PartitionGrows(Select(threshold, f, es[..k], true), Select(threshold, f, es[..k], false), es[..k], es[k]);
    }
  }

  /** Events all below the threshold are all rejected. */
  lemma {:induction false} SelectNone(threshold: nat, f: PrefixFilter, es: seq<Event>)
    requires forall i :: 0 <= i < |es| ==> !ShouldLog(threshold, f, es[i])
    ensures Select(threshold, f, es, true) == [] && Select(threshold, f, es, false) == es
  {
    if es != [] {
      var k := |es| - 1;
      SelectNone(threshold, f, es[..k]);
      assert es == es[..k] + [es[k]];
    }
  }

  /** Selection keeps the number of each event, so it does not depend on the order. */
  lemma {:induction false} SelectCount(threshold: nat, f: PrefixFilter, es: seq<Event>, e: Event)
    ensures multiset(Select(threshold, f, es, true))[e] == if ShouldLog(threshold, f, e) then multiset(es)[e] else 0
  {
    if es != [] {
      var k := |es| - 1;
      SelectCount(threshold, f, es[..k], e);
      assert es == es[..k] + [es[k]];
    }
  }

  lemma {:induction false} SelectMembers(threshold: nat, f: PrefixFilter, es: seq<Event>, want: bool, e: Event)
    ensures e in Select(threshold, f, es, want) <==> e in es && ShouldLog(threshold, f, e) == want
  {
    if es != [] {
      var k := |es| - 1;
      SelectMembers(threshold, f, es[..k], want, e);
      assert es == es[..k] + [es[k]];
      hide ShouldLog;
    }
  }

  // ------------------------------------------------------------------ what the filter lets through

  /** Reasons to reject an event: its level is too low, its empty prefix is blocked, its prefix
      is not on the allowlist, or it is on the denylist. */
  ghost predicate Excluded(threshold: nat, f: PrefixFilter, e: Event) {
    || e.level < threshold
    || (e.prefix == "" && f.blockEmpty)
    || (e.prefix != "" && f.mode == Allowlist && e.prefix !in f.prefixes)
    || (e.prefix != "" && f.mode == Denylist && e.prefix in f.prefixes)
  }

  /** No written event was excluded, and every rejected one was. */
  ghost predicate Honest(threshold: nat, f: PrefixFilter, a: Account) {
    && (forall e :: e in a.written ==> !Excluded(threshold, f, e))
    && (forall e :: e in a.rejected ==> Excluded(threshold, f, e))
  }

  lemma BookHonest(threshold: nat, f: PrefixFilter, a: Account, batch: seq<Event>, n: nat)
    requires n <= |batch| && Honest(threshold, f, a)
    ensures Honest(threshold, f, Book(threshold, f, a, batch, n))
  {
    var b := Book(threshold, f, a, batch, n);
    forall e | e in b.written ensures !Excluded(threshold, f, e) {
      SelectMembers(threshold, f, batch[..n], true, e);
    }
    forall e | e in b.rejected ensures Excluded(threshold, f, e) {
      SelectMembers(threshold, f, batch[..n], false, e);
    }
  }

  /** What a sink has done with the events it was given: written, filtered out, or lost because
      it was Dead or died. */
  datatype Account = Account(written: seq<Event>, rejected: seq<Event>, lost: seq<Event>)

  /** The account after a batch whose first `n` events went through, the rest being lost. */
  function Book(threshold: nat, f: PrefixFilter, a: Account, batch: seq<Event>, n: nat): Account
    requires n <= |batch|
  {
    Account(a.written + Select(threshold, f, batch[..n], true), a.rejected + Select(threshold, f, batch[..n], false),
            a.lost + batch[n..])
  }

  ghost function Total(a: Account): multiset<Event> {
    multiset(a.written) + multiset(a.rejected) + multiset(a.lost)
  }

  /** Each event of the batch is accounted for once. */
  lemma BookTotal(threshold: nat, f: PrefixFilter, a: Account, batch: seq<Event>, n: nat)
    requires n <= |batch|
    ensures Total(Book(threshold, f, a, batch, n)) == Total(a) + multiset(batch)
    ensures |Book(threshold, f, a, batch, n).lost| == |a.lost| + |batch| - n
  {
    SelectPartition(threshold, f, batch[..n]);
    assert batch == batch[..n] + batch[n..];
  }

  /** How many events of the batch go through: all up to the first write that fails. */
  function Delivered(threshold: nat, f: PrefixFilter, batch: seq<Event>, writes: seq<bool>): (n: nat)
    requires |writes| == |batch|
    ensures n <= |batch|
    ensures n < |batch| ==> ShouldLog(threshold, f, batch[n]) && !writes[n]
    ensures forall i :: 0 <= i < n ==> ShouldLog(threshold, f, batch[i]) ==> writes[i]
  {
    if batch == [] then 0
    else
      var k := |batch| - 1;
      var n := Delivered(threshold, f, batch[..k], writes[..k]);
      if n < k then n
      else if ShouldLog(threshold, f, batch[k]) && !writes[k] then k else k + 1
  }
}
