/**
 When the delivered stream is globally sorted: exactly if, at every pass, each later entry
 has at least as many earlier entries before it as were delivered. That is so if every entry
 arrives at most window - batch positions after its rank and the sorter is flushed only at
 the end, and one position more is too much for every window and batch.
 */
module SorterOrder {
  import opened Basics
  import opened Sorter

  // ------------------------------------------------------------------ ranks

  /** Entry `j` comes before entry `i` in the stable order. */
  predicate Before<T>(x: seq<T>, j: nat, i: nat, lt: (T, T) -> bool)
    requires i < |x| && j < |x|
  {
    lt(x[j], x[i]) || (j < i && !lt(x[i], x[j]))
  }

  /** How many of the first `n` entries come before entry `i`. */
  function CountBefore<T>(x: seq<T>, i: nat, n: nat, lt: (T, T) -> bool): nat
    requires i < |x| && n <= |x|
  {
    if n == 0 then 0 else CountBefore(x, i, n - 1, lt) + One(Before(x, n - 1, i, lt))
  }

  function Rank<T>(x: seq<T>, i: nat, lt: (T, T) -> bool): nat
    requires i < |x|
  {
    CountBefore(x, i, |x|, lt)
  }

  /** No entry arrives more than `slack` positions after its rank. */
  ghost predicate NearlySorted<T>(x: seq<T>, slack: int, lt: (T, T) -> bool) {
    forall i :: 0 <= i < |x| ==> i - Rank(x, i, lt) <= slack
  }

  // ------------------------------------------------------------------ counting elements

  /** How many elements of `s` may stand before `y`. */
  function CountLe<T>(s: seq<T>, y: T, lt: (T, T) -> bool): (n: nat)
    ensures n <= |s|
  {
    if s == [] then 0 else CountLe(s[..|s| - 1], y, lt) + One(!lt(y, s[|s| - 1]))
  }

  lemma {:induction false} CountLeConcat<T>(a: seq<T>, b: seq<T>, y: T, lt: (T, T) -> bool)
    ensures CountLe(a + b, y, lt) == CountLe(a, y, lt) + CountLe(b, y, lt)
  {
    if b == [] {
      assert a + b == a;
    } else {
      var k := |b| - 1;
      assert (a + b)[..|a + b| - 1] == a + b[..k];
      CountLeConcat(a, b[..k], y, lt);
    }
  }

  lemma Cancel<T>(a: multiset<T>, b: multiset<T>, c: multiset<T>)
    requires a + c == b + c
    ensures a == b
  {
    assert a == (a + c) - c && b == (b + c) - c;
  }

  lemma Remainder<T>(a: multiset<T>, b: multiset<T>, w: multiset<T>, x: multiset<T>, f: multiset<T>)
    requires a + w == x && a + b == x + f
    ensures b == w + f
  {
    assert b == (a + b) - a && w + f == (x + f) - a;
  }

  lemma {:induction false} CountLePermutation<T>(a: seq<T>, b: seq<T>, y: T, lt: (T, T) -> bool)
    requires multiset(a) == multiset(b)
    ensures CountLe(a, y, lt) == CountLe(b, y, lt)
    decreases |a|
  {
    assert |multiset(a)| == |multiset(b)|;
    if a != [] {
      var k := |a| - 1;
      assert a == a[..k] + [a[k]];
      assert a[k] in multiset(b);
      var j :| 0 <= j < |b| && b[j] == a[k];
      var rest := b[..j] + b[j + 1..];
      assert b == b[..j] + [b[j]] + b[j + 1..];
      Cancel(multiset(rest), multiset(a[..k]), multiset{a[k]});
      CountLePermutation(a[..k], rest, y, lt);
      CountLeConcat(b[..j] + [b[j]], b[j + 1..], y, lt);
      CountLeConcat(b[..j], [b[j]], y, lt);
      CountLeConcat(b[..j], b[j + 1..], y, lt);
      assert [b[j]][..0] == [];
    } else {
      assert b == [];
    }
  }

  /** Elements all greater than `y` are not counted. */
  lemma {:induction false} CountLeNone<T>(s: seq<T>, y: T, lt: (T, T) -> bool)
    requires forall i :: 0 <= i < |s| ==> lt(y, s[i])
    ensures CountLe(s, y, lt) == 0
  {
    if s != [] {
      CountLeNone(s[..|s| - 1], y, lt);
    }
  }

  // ------------------------------------------------------------------ the argument

  /** The earliest of the smallest entries from position `m` on. */
  lemma {:induction false} EarliestLeast<T(!new)>(x: seq<T>, m: nat, n: nat, lt: (T, T) -> bool) returns (i: nat)
    requires m < n <= |x| && StrictWeak(lt)
    ensures m <= i < n
    ensures forall j :: m <= j < n ==> !lt(x[j], x[i])
    ensures forall j :: m <= j < i ==> lt(x[i], x[j])
    decreases n
  {
    if n == m + 1 {
      i := m;
    } else {
      i := EarliestLeast(x, m, n - 1, lt);
      if lt(x[n - 1], x[i]) {
        i := n - 1;
      }
    }
  }

  /** Its rank is the number of earlier entries that may stand before it. */
  lemma {:induction false} RankOfLeast<T(!new)>(x: seq<T>, m: nat, n: nat, i: nat, lt: (T, T) -> bool)
    requires m <= n <= |x| && m <= i < |x| && StrictWeak(lt)
    requires forall j :: m <= j < |x| ==> !lt(x[j], x[i])
    requires forall j :: m <= j < i ==> lt(x[i], x[j])
    ensures CountBefore(x, i, n, lt) == CountLe(x[..m], x[i], lt)
    decreases n
  {
    if n > m {
      RankOfLeast(x, m, n - 1, i, lt);
    } else {
      RankInPrefix(x, m, i, lt);
    }
  }

  lemma {:induction false} RankInPrefix<T(!new)>(x: seq<T>, m: nat, i: nat, lt: (T, T) -> bool)
    requires m <= i < |x| && StrictWeak(lt)
    ensures CountBefore(x, i, m, lt) == CountLe(x[..m], x[i], lt)
    decreases m
  {
    if m > 0 {
      RankInPrefix(x, m - 1, i, lt);
      assert x[..m][..m - 1] == x[..m - 1];
    }
  }

  lemma {:induction false} CountLeMonotone<T(!new)>(s: seq<T>, y: T, z: T, lt: (T, T) -> bool)
    requires StrictWeak(lt) && !lt(z, y)
    ensures CountLe(s, y, lt) <= CountLe(s, z, lt)
  {
    if s != [] {
      CountLeMonotone(s[..|s| - 1], y, z, lt);
    }
  }

  lemma CountLePrefix<T>(x: seq<T>, m: nat, n: nat, y: T, lt: (T, T) -> bool)
    requires m <= n <= |x|
    ensures CountLe(x[..m], y, lt) <= CountLe(x[..n], y, lt)
  {
    assert x[..n] == x[..m] + x[m..n];
    CountLeConcat(x[..m], x[m..n], y, lt);
  }

  /** In a nearly sorted stream, all but `slack` of the first `m` entries may stand before a later one. */
  lemma LateEntriesHaveCompany<T(!new)>(x: seq<T>, slack: int, m: nat, i: nat, lt: (T, T) -> bool)
    requires StrictWeak(lt) && NearlySorted(x, slack, lt) && m <= i < |x|
    ensures CountLe(x[..m], x[i], lt) >= m - slack
  {
    var j := EarliestLeast(x, m, |x|, lt);
    RankOfLeast(x, m, |x|, j, lt);
    assert j - Rank(x, j, lt) <= slack;
    CountLeMonotone(x[..m], x[j], x[i], lt);
  }

  /** If delivered entry `a` is greater than `y`, fewer than all delivered entries may stand before `y`. */
  lemma TooFewBefore<T(!new)>(delivered: seq<T>, window: seq<T>, a: nat, y: T, lt: (T, T) -> bool)
    requires StrictWeak(lt) && Sorted(delivered + window, lt) && a < |delivered|
    ensures lt(y, delivered[a]) ==> CountLe(delivered, y, lt) + CountLe(window, y, lt) < |delivered|
  {
    if lt(y, delivered[a]) {
      var tail := delivered[a..] + window;
      var all := delivered + window;
      forall k | 0 <= k < |tail| ensures lt(y, tail[k]) {
        assert tail[k] == all[a + k] && all[a] == delivered[a];
      }
      CountLeNone(tail, y, lt);
      CountLeConcat(delivered[a..], window, y, lt);
      assert delivered == delivered[..a] + delivered[a..];
      CountLeConcat(delivered[..a], delivered[a..], y, lt);
    }
  }

  // ------------------------------------------------------------------ runs of the sorter

  /** A flush is the last thing that happens. */
  ghost predicate FlushedOnlyAtEnd<T>(passes: seq<Pass<T>>, input: seq<T>) {
    forall k :: 0 <= k < |passes| && passes[k].forced ==> passes[k].m == |input|
  }

  /** What holds after pass `k`: delivered entries are sorted, and below all that follow. */
  ghost predicate InOrder<T>(p: Pass<T>, input: seq<T>, output: seq<T>, lt: (T, T) -> bool)
    requires Fits(p, input, output)
  {
    Sorted(output[..p.d] + p.window, lt) && Below(output[..p.d], input[p.m..], lt)
  }

  /** A pass that delivers leaves at least window - batch entries behind. */
  lemma KeepsSlack<T>(c: Config<T>, size: nat)
    requires c.batchSize <= c.windowSize
    ensures OutputCount(c, size, false) > 0 ==> size - OutputCount(c, size, false) >= c.windowSize - c.batchSize
  {
  }

  lemma MergeInOrder<T(!new)>(done: seq<T>, window: seq<T>, added: seq<T>, later: seq<T>, chunk: seq<T>, rest: seq<T>,
                              lt: (T, T) -> bool)
    requires Sorted(done + window, lt) && Below(done, added + later, lt)
    requires multiset(chunk + rest) == multiset(window + added) && Sorted(chunk + rest, lt)
    ensures Sorted(done + chunk + rest, lt) && Below(done, later, lt)
  {
    SortedParts(done, window, lt);
    SameMembers(chunk + rest, window + added);
    forall i, j | 0 <= i < |done| && 0 <= j < |chunk + rest| ensures !lt((chunk + rest)[j], done[i]) {
      var e := (chunk + rest)[j];
      assert e in window + added;
      if e in window {
        var k :| 0 <= k < |window| && window[k] == e;
      } else {
        var k :| 0 <= k < |added| && added[k] == e;
        assert (added + later)[k] == e;
      }
    }
    assert done + chunk + rest == done + (chunk + rest);
    SortedParts(done, chunk + rest, lt);
    forall i, j | 0 <= i < |done| && 0 <= j < |later| ensures !lt(later[j], done[i]) {
      assert (added + later)[|added| + j] == later[j];
    }
  }

  /** At every pass each later entry has at least as many of the merged entries before it as
      have been delivered. */
  ghost predicate Timely<T>(c: Config<T>, passes: seq<Pass<T>>, input: seq<T>) {
    forall k, i :: 0 <= k < |passes| && passes[k].m <= i < |input| ==> Suits(c, passes[k], input, i)
  }

  ghost predicate Suits<T>(c: Config<T>, p: Pass<T>, input: seq<T>, i: nat)
    requires p.m <= |input| && i < |input|
  {
    CountLe(input[..p.m], input[i], c.lt) >= p.d
  }

  lemma TimelyBelow<T(!new)>(c: Config<T>, p: Pass<T>, input: seq<T>, output: seq<T>)
    requires StrictWeak(c.lt) && Fits(p, input, output) && Sorted(output[..p.d] + p.window, c.lt)
    requires multiset(output[..p.d]) + multiset(p.window) == multiset(input[..p.m])
    requires forall i :: p.m <= i < |input| ==> Suits(c, p, input, i)
    ensures Below(output[..p.d], input[p.m..], c.lt)
  {
    var done, later := output[..p.d], input[p.m..];
    forall a, j | 0 <= a < |done| && 0 <= j < |later| ensures !c.lt(later[j], done[a]) {
      var y := later[j];
      assert Suits(c, p, input, p.m + j);
      CountLeConcat(done, p.window, y, c.lt);
      CountLePermutation(done + p.window, input[..p.m], y, c.lt);
      TooFewBefore(done, p.window, a, y, c.lt);
    }
  }

  lemma {:induction false} PassInOrder<T(!new)>(c: Config<T>, passes: seq<Pass<T>>, input: seq<T>, output: seq<T>,
                                                k: nat)
    requires StrictWeak(c.lt) && c.sorting && Chained(c, passes, input, output) && k < |passes|
    requires Timely(c, passes, input)
    ensures Fits(passes[k], input, output) && InOrder(passes[k], input, output, c.lt)
  {
    if k > 0 {
      hide StrictWeak, Linked, InOrder, Fits, Suits;
      PassInOrder(c, passes, input, output, k - 1);
      PassConserves(c, passes, input, output, k);
      assert Linked(c, passes[k - 1], passes[k - 1 + 1], input, output);
      assert forall i :: passes[k].m <= i < |input| ==> Suits(c, passes[k], input, i);
      NextInOrder(c, passes[k - 1], passes[k], input, output);
    }
  }

  lemma NextInOrder<T(!new)>(c: Config<T>, p: Pass<T>, q: Pass<T>, input: seq<T>, output: seq<T>)
    requires StrictWeak(c.lt) && c.sorting && Linked(c, p, q, input, output) && InOrder(p, input, output, c.lt)
    requires multiset(output[..q.d]) + multiset(q.window) == multiset(input[..q.m])
    requires forall i :: q.m <= i < |input| ==> Suits(c, q, input, i)
    ensures InOrder(q, input, output, c.lt)
  {
    var done, chunk, added, later := output[..p.d], output[p.d..q.d], input[p.m..q.m], input[q.m..];
    assert input[p.m..] == added + later && output[..q.d] == done + chunk;
    hide StrictWeak, Sorted, Below, Suits, OutputCount;
    MergeInOrder(done, p.window, added, later, chunk, q.window, c.lt);
    TimelyBelow(c, q, input, output);
  }

  lemma TimelyIsSorted<T(!new)>(c: Config<T>, passes: seq<Pass<T>>, input: seq<T>, output: seq<T>, window: seq<T>,
                                pending: seq<T>)
    requires StrictWeak(c.lt) && c.sorting && Reached(c, passes, input, output, window, pending)
    requires Timely(c, passes, input)
    ensures Sorted(output, c.lt)
  {
    var k := |passes| - 1;
    PassInOrder(c, passes, input, output, k);
    SortedParts(output[..passes[k].d], passes[k].window, c.lt);
    assert output[..passes[k].d] == output;
  }

  lemma FlushedPermutes<T>(c: Config<T>, passes: seq<Pass<T>>, input: seq<T>, output: seq<T>)
    requires Reached(c, passes, input, output, [], [])
    ensures multiset(output) == multiset(input)
  {
    var k := |passes| - 1;
    PassConserves(c, passes, input, output, k);
    assert output[..passes[k].d] == output && input[..passes[k].m] == input;
  }

  /** Whatever arrives after a pass comes out after what that pass had delivered. */
  lemma LaterComesOutLater<T(!new)>(c: Config<T>, passes: seq<Pass<T>>, input: seq<T>, output: seq<T>, k: nat, i: nat)
    returns (b: nat)
    requires Reached(c, passes, input, output, [], []) && k < |passes| && passes[k].m <= i < |input|
    ensures passes[k].d <= b < |output| && output[b] == input[i]
  {
    FlushedPermutes(c, passes, input, output);
    PassConserves(c, passes, input, output, k);
    var d, m := passes[k].d, passes[k].m;
    assert output == output[..d] + output[d..] && input == input[..m] + input[m..];
    Remainder(multiset(output[..d]), multiset(output[d..]), multiset(passes[k].window), multiset(input[..m]),
              multiset(input[m..]));
    assert input[m..][i - m] == input[i];
    assert input[i] in multiset(input[m..]);
    assert input[i] in multiset(output[d..]);
    assert input[i] in output[d..];
    var j :| 0 <= j < |output[d..]| && output[d..][j] == input[i];
    b := d + j;
  }

  /** All `d` entries of a sorted stream's front may stand before one that comes out later. */
  lemma {:induction false} FrontCounts<T>(s: seq<T>, y: T, lt: (T, T) -> bool)
    requires forall a :: 0 <= a < |s| ==> !lt(y, s[a])
    ensures CountLe(s, y, lt) == |s|
  {
    if s != [] {
      FrontCounts(s[..|s| - 1], y, lt);
    }
  }

  lemma SortedSuits<T(!new)>(c: Config<T>, passes: seq<Pass<T>>, input: seq<T>, output: seq<T>, k: nat, i: nat)
    requires Reached(c, passes, input, output, [], []) && Sorted(output, c.lt)
    requires k < |passes| && passes[k].m <= i < |input|
    ensures Suits(c, passes[k], input, i)
  {
    var b := LaterComesOutLater(c, passes, input, output, k, i);
    PassConserves(c, passes, input, output, k);
    var p, y := passes[k], input[i];
    var done := output[..p.d];
    FrontCounts(done, y, c.lt);
    CountLeConcat(done, p.window, y, c.lt);
    CountLePermutation(done + p.window, input[..p.m], y, c.lt);
  }

  /** The exact condition: once everything is delivered, the stream is sorted if and only if
      every pass was timely, whatever the window, the batch and the flushes were. */
  lemma SortedIffTimely<T(!new)>(c: Config<T>, passes: seq<Pass<T>>, input: seq<T>, output: seq<T>)
    requires StrictWeak(c.lt) && c.sorting && Reached(c, passes, input, output, [], [])
    ensures Sorted(output, c.lt) <==> Timely(c, passes, input)
  {
    if Timely(c, passes, input) {
      TimelyIsSorted(c, passes, input, output, [], []);
    }
    if Sorted(output, c.lt) {
      forall k, i | 0 <= k < |passes| && passes[k].m <= i < |input| ensures Suits(c, passes[k], input, i) {
        SortedSuits(c, passes, input, output, k, i);
      }
    }
  }

  /** A nearly sorted stream, flushed only at the end, is timely. */
  lemma {:induction false} NearlyIsTimely<T(!new)>(c: Config<T>, passes: seq<Pass<T>>, input: seq<T>, output: seq<T>,
                                                   k: nat, i: nat)
    requires StrictWeak(c.lt) && c.batchSize <= c.windowSize && Chained(c, passes, input, output)
    requires NearlySorted(input, c.windowSize - c.batchSize, c.lt) && FlushedOnlyAtEnd(passes, input)
    requires k < |passes| && passes[k].m <= i < |input|
    ensures Suits(c, passes[k], input, i)
  {
    PassConserves(c, passes, input, output, k);
    if k > 0 {
      var p, q := passes[k - 1], passes[k];
      assert Linked(c, p, passes[k - 1 + 1], input, output);
      if q.d == p.d {
        NearlyIsTimely(c, passes, input, output, k - 1, i);
        CountLePrefix(input, p.m, q.m, input[i], c.lt);
      } else {
        SplitMultiset(output[p.d..q.d], q.window, p.window, input[p.m..q.m]);
        KeepsSlack(c, |p.window + input[p.m..q.m]|);
        LateEntriesHaveCompany(input, c.windowSize - c.batchSize, q.m, i, c.lt);
      }
    }
  }

  /** The delivered stream is sorted, and once everything is flushed it is a sorted
      permutation of the whole input. */
  lemma NearlySortedComesOutSorted<T(!new)>(c: Config<T>, passes: seq<Pass<T>>, input: seq<T>, output: seq<T>,
                                            window: seq<T>, pending: seq<T>)
    requires StrictWeak(c.lt) && c.sorting && c.batchSize <= c.windowSize
    requires Reached(c, passes, input, output, window, pending)
    requires NearlySorted(input, c.windowSize - c.batchSize, c.lt) && FlushedOnlyAtEnd(passes, input)
    ensures Sorted(output, c.lt)
    ensures window == pending == [] ==> multiset(output) == multiset(input)
  {
    forall k, i | 0 <= k < |passes| && passes[k].m <= i < |input| ensures Suits(c, passes[k], input, i) {
      NearlyIsTimely(c, passes, input, output, k, i);
    }
    TimelyIsSorted(c, passes, input, output, window, pending);
    if window == pending == [] {
      FlushedPermutes(c, passes, input, output);
    }
  }

  /** The same about the object: since its last reconfiguration it has delivered in order. */
  lemma DeliversSorted<T(!new)>(s: SlidingWindowSorter<T>)
    requires s.Valid() && s.config.sorting && s.config.batchSize <= s.config.windowSize
    requires NearlySorted(s.input, s.config.windowSize - s.config.batchSize, s.config.lt)
    requires FlushedOnlyAtEnd(s.passes, s.input)
    ensures Sorted(s.output, s.config.lt)
    ensures s.window == s.pending == [] ==> multiset(s.output) == multiset(s.input)
  {
    NearlySortedComesOutSorted(s.config, s.passes, s.input, s.output, s.window, s.pending);
  }

  predicate Less(a: int, b: int) {
    a < b
  }

  // ------------------------------------------------------------------ one position too late

  function Evens(n: nat): (s: seq<int>)
    ensures |s| == n && forall j :: 0 <= j < n ==> s[j] == 2 * j
  {
    seq(n, j => 2 * j)
  }

  lemma {:induction false} EvensBelow(n: nat, b: nat)
    requires b >= 1
    ensures CountLe(Evens(n), 2 * b - 3, Less) == if n < b - 1 then n else b - 1
  {
    if n > 0 {
      assert Evens(n)[..n - 1] == Evens(n - 1);
      EvensBelow(n - 1, b);
    }
  }

  /** `window` entries in order, then one that belongs just before the last of the first `batch`. */
  function LateStream(window: nat, batch: nat): seq<int> {
    Evens(window) + [2 * batch - 3]
  }

  lemma {:induction false} EvenRank(window: nat, batch: nat, i: nat, n: nat)
    requires n <= i < window
    ensures CountBefore(LateStream(window, batch), i, n, Less) >= n
  {
    if n > 0 {
      EvenRank(window, batch, i, n - 1);
    }
  }

  lemma {:induction false} CountBeforeGrows<T>(x: seq<T>, i: nat, m: nat, n: nat, lt: (T, T) -> bool)
    requires i < |x| && m <= n <= |x|
    ensures CountBefore(x, i, m, lt) <= CountBefore(x, i, n, lt)
    decreases n
  {
    if m < n {
      CountBeforeGrows(x, i, m, n - 1, lt);
    }
  }

  /** In that stream no entry is more than window - batch + 1 positions late, and the last one is. */
  lemma LateStreamRanks(window: nat, batch: nat)
    requires 1 <= batch <= window
    ensures NearlySorted(LateStream(window, batch), window - batch + 1, Less)
    ensures window - Rank(LateStream(window, batch), window, Less) == window - batch + 1
    ensures CountLe(LateStream(window, batch)[..window], 2 * batch - 3, Less) == batch - 1
  {
    var x := LateStream(window, batch);
    assert x[..window] == Evens(window);
    EvensBelow(window, batch);
    RankInPrefix(x, window, window, Less);
    forall i | 0 <= i < |x| ensures i - Rank(x, i, Less) <= window - batch + 1 {
      if i < window {
        EvenRank(window, batch, i, i);
        CountBeforeGrows(x, i, i, |x|, Less);
      }
    }
  }

  /** A first pass over `window` entries delivers `batch` of them. */
  lemma FirstPass<T>(c: Config<T>, passes: seq<Pass<T>>, input: seq<T>, output: seq<T>, window: seq<T>, pending: seq<T>)
    requires 1 <= c.batchSize <= c.windowSize && |input| == c.windowSize
    requires Passed(c, [Pass(0, 0, [], false)], passes, input, output, window, pending, false)
    ensures |passes| == 2 && passes[1].m == c.windowSize && passes[1].d == c.batchSize
  {
  }

  lemma PassedKeeps<T>(c: Config<T>, was: seq<Pass<T>>, passes: seq<Pass<T>>, input: seq<T>, output: seq<T>,
                       window: seq<T>, pending: seq<T>, forced: bool)
    requires |was| > 1 && Passed(c, was, passes, input, output, window, pending, forced)
    ensures |passes| > 1 && passes[1] == was[1]
  {
  }

  lemma LateUnsorted(window: nat, batch: nat, passes: seq<Pass<int>>, output: seq<int>)
    requires 1 <= batch <= window && |passes| > 1 && passes[1].m == window && passes[1].d == batch
    requires Reached(Config(window, batch, true, Less, 64), passes, LateStream(window, batch), output, [], [])
    ensures !Sorted(output, Less)
  {
    var c := Config(window, batch, true, Less, 64);
    LateStreamRanks(window, batch);
    SortedIffTimely(c, passes, LateStream(window, batch), output);
    assert !Suits(c, passes[1], LateStream(window, batch), window);
  }

  method FirstCall(window: nat, batch: nat) returns (s: SlidingWindowSorter<int>)
    requires 1 <= batch <= window
    ensures fresh(s) && s.Valid() && s.config == Config(window, batch, true, Less, 64) && s.input == Evens(window)
    ensures |s.passes| == 2 && s.passes[1].m == window && s.passes[1].d == batch
  {
    s := new SlidingWindowSorter<int>(Config(window, batch, true, Less, 64));
    hide Passed, Reached, StrictWeak;
    s.AddEntries(Evens(window));
    assert s.input == Evens(window);
    FirstPass(s.config, s.passes, s.input, s.output, s.window, s.pending);
  }

  method LateCall(s: SlidingWindowSorter<int>, entry: int)
    requires s.Valid() && |s.passes| > 1
    modifies s
    ensures s.Valid() && s.config == old(s.config) && s.input == old(s.input) + [entry]
    ensures |s.passes| > 1 && s.passes[1] == old(s.passes[1]) && s.window == s.pending == []
  {
    hide Passed, Reached, StrictWeak;
    ghost var was := s.passes;
    s.AddEntry(entry);
    if s.passes != was {
      PassedKeeps(s.config, was, s.passes, s.input, s.output, s.window, s.pending, false);
    }
    was := s.passes;
    s.Flush();
    if s.passes != was {
      PassedKeeps(s.config, was, s.passes, s.input, s.output, s.window, s.pending, true);
    }
  }

  /** The bound is sharp for every window and batch: the sorter, given that stream in two
      calls and flushed at the end, delivers it out of order. */
  method OneTooLate(window: nat, batch: nat) returns (s: SlidingWindowSorter<int>)
    requires 1 <= batch <= window
    ensures s.Valid() && s.config == Config(window, batch, true, Less, 64)
    ensures s.input == LateStream(window, batch) && s.window == s.pending == []
    ensures NearlySorted(s.input, window - batch + 1, Less) && !Sorted(s.output, Less)
  {
    hide Reached, StrictWeak, NearlySorted, Sorted, Evens;
    s := FirstCall(window, batch);
    LateCall(s, 2 * batch - 3);
    LateStreamRanks(window, batch);
    LateUnsorted(window, batch, s.passes, s.output);
  }
}
