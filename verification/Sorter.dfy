/**
 The sliding-window sorter: entries are buffered, sorted in batches, merged into a sorted
 window, and handed to the consumer from the front of the window once it is full.
 */
module Sorter {

  // ------------------------------------------------------------------ comparators

  /** What the algorithms demand of a comparator. */
  ghost predicate StrictWeak<T(!new)>(lt: (T, T) -> bool) {
    && (forall a, b :: lt(a, b) ==> !lt(b, a))
    && (forall a, b, c :: !lt(a, b) && !lt(b, c) ==> !lt(a, c))
  }

  ghost predicate Sorted<T>(s: seq<T>, lt: (T, T) -> bool) {
    forall i, j :: 0 <= i < j < |s| ==> !lt(s[j], s[i])
  }

  /** Every element of `a` may stand before every element of `b`. */
  ghost predicate Below<T>(a: seq<T>, b: seq<T>, lt: (T, T) -> bool) {
    forall i, j :: 0 <= i < |a| && 0 <= j < |b| ==> !lt(b[j], a[i])
  }

  lemma SortedParts<T>(a: seq<T>, b: seq<T>, lt: (T, T) -> bool)
    ensures Sorted(a + b, lt) <==> Sorted(a, lt) && Sorted(b, lt) && Below(a, b, lt)
  {
    var s := a + b;
    if Sorted(s, lt) {
      forall i, j | 0 <= i < j < |a| ensures !lt(a[j], a[i]) {
        assert s[i] == a[i] && s[j] == a[j];
      }
      forall i, j | 0 <= i < j < |b| ensures !lt(b[j], b[i]) {
        assert s[|a| + i] == b[i] && s[|a| + j] == b[j];
      }
      forall i, j | 0 <= i < |a| && 0 <= j < |b| ensures !lt(b[j], a[i]) {
        assert s[i] == a[i] && s[|a| + j] == b[j];
      }
    }
  }

  lemma SameMembers<T(!new)>(a: seq<T>, b: seq<T>)
    requires multiset(a) == multiset(b)
    ensures |a| == |b| && forall x :: x in a <==> x in b
  {
    assert |multiset(a)| == |multiset(b)|;
    assert forall x :: x in a <==> x in multiset(a);
    assert forall x :: x in b <==> x in multiset(b);
  }

  // ------------------------------------------------------------------ sorting and merging

  /** std::upper_bound over the sorted prefix of length `n`. */
  method UpperBound<T(!new)>(s: seq<T>, n: nat, key: T, lt: (T, T) -> bool) returns (pos: nat)
    requires n <= |s| && StrictWeak(lt) && Sorted(s[..n], lt)
    ensures pos <= n
    ensures forall i :: 0 <= i < pos ==> !lt(key, s[i])
    ensures forall i :: pos <= i < n ==> lt(key, s[i])
  {
    var lo, hi := 0, n;
    while lo < hi
      invariant 0 <= lo <= hi <= n
      invariant forall i :: 0 <= i < lo ==> !lt(key, s[i])
      invariant forall i :: hi <= i < n ==> lt(key, s[i])
    {
      var mid := (lo + hi) / 2;
      assert s[..n][mid] == s[mid];
      if lt(key, s[mid]) {
        forall i | mid <= i < n ensures lt(key, s[i]) {
          assert s[..n][i] == s[i];
        }
        hi := mid;
      } else {
        forall i | 0 <= i <= mid ensures !lt(key, s[i]) {
          assert s[..n][i] == s[i];
        }
        lo := mid + 1;
      }
    }
    pos := lo;
  }

  lemma InsertSorted<T(!new)>(s: seq<T>, pos: nat, key: T, lt: (T, T) -> bool)
    requires pos <= |s| && StrictWeak(lt) && Sorted(s, lt)
    requires forall i :: 0 <= i < pos ==> !lt(key, s[i])
    requires forall i :: pos <= i < |s| ==> lt(key, s[i])
    ensures Sorted(s[..pos] + [key] + s[pos..], lt)
    ensures multiset(s[..pos] + [key] + s[pos..]) == multiset(s) + multiset{key}
  {
    var a, b := s[..pos], s[pos..];
    assert s == a + b;
    assert multiset(a + [key] + b) == multiset(a + b) + multiset{key};
    SortedParts(a, b, lt);
    SortedParts(a, [key], lt);
    SortedParts(a + [key], b, lt);
  }

  method InsertionSort<T(!new)>(s: seq<T>, lt: (T, T) -> bool) returns (r: seq<T>)
    requires StrictWeak(lt) && s != []
    ensures multiset(r) == multiset(s) && Sorted(r, lt)
  {
    r := s;
    for i := 1 to |s|
      invariant |r| == |s| && multiset(r) == multiset(s) && Sorted(r[..i], lt)
    {
      var key := r[i];
      var pos := UpperBound(r, i, key, lt);
      var p := r[..i];
      assert forall j :: 0 <= j < i ==> p[j] == r[j];
      InsertSorted(p, pos, key, lt);
      assert r == p + [key] + r[i + 1..];
      r := p[..pos] + [key] + p[pos..] + r[i + 1..];
      assert r[..i + 1] == p[..pos] + [key] + p[pos..];
    }
    assert r[..|s|] == r;
  }

  /** std::merge and std::inplace_merge: equal elements of the first range come first. */
  method Merge<T(!new)>(a: seq<T>, b: seq<T>, lt: (T, T) -> bool) returns (r: seq<T>)
    requires StrictWeak(lt) && Sorted(a, lt) && Sorted(b, lt)
    ensures multiset(r) == multiset(a) + multiset(b) && Sorted(r, lt)
  {
    var i, j := 0, 0;
    r := [];
    while i < |a| || j < |b|
      invariant 0 <= i <= |a| && 0 <= j <= |b|
      invariant multiset(r) == multiset(a[..i]) + multiset(b[..j])
      invariant Sorted(r, lt) && Below(r, a[i..], lt) && Below(r, b[j..], lt)
      decreases |a| - i + |b| - j
    {
      hide StrictWeak, Below;
      if j == |b| || (i < |a| && !lt(b[j], a[i])) {
        MergeStep(r, a, i, b, j, lt);
        r := r + [a[i]];
        assert a[..i + 1] == a[..i] + [a[i]];
        i := i + 1;
      } else {
        MergeStep(r, b, j, a, i, lt);
        r := r + [b[j]];
        assert b[..j + 1] == b[..j] + [b[j]];
        j := j + 1;
      }
    }
    assert a[..i] == a && b[..j] == b;
  }

  /** std::sort, of which callers know its contract only: some sorted permutation. */
  method StandardSort<T(!new)>(s: seq<T>, lt: (T, T) -> bool) returns (r: seq<T>)
    requires StrictWeak(lt)
    ensures multiset(r) == multiset(s) && Sorted(r, lt)
    decreases |s|
  {
    if |s| <= 1 {
      return s;
    }
    var half := |s| / 2;
    var a := StandardSort(s[..half], lt);
    var b := StandardSort(s[half..], lt);
    assert s == s[..half] + s[half..];
    r := Merge(a, b, lt);
  }

  lemma MergeStep<T(!new)>(r: seq<T>, a: seq<T>, i: nat, b: seq<T>, j: nat, lt: (T, T) -> bool)
    requires StrictWeak(lt) && Sorted(r, lt) && i < |a| && j <= |b| && Sorted(a, lt) && Sorted(b, lt)
    requires Below(r, a[i..], lt) && Below(r, b[j..], lt) && (j < |b| ==> !lt(b[j], a[i]))
    ensures Sorted(r + [a[i]], lt) && Below(r + [a[i]], a[i + 1..], lt) && Below(r + [a[i]], b[j..], lt)
  {
    assert a[i..][0] == a[i];
    var r2, a2, b2 := r + [a[i]], a[i + 1..], b[j..];
    forall k, l | 0 <= k < |r2| && 0 <= l < |a2| ensures !lt(a2[l], r2[k]) {
      assert a2[l] == a[i..][l + 1];
    }
    forall k, l | 0 <= k < |r2| && 0 <= l < |b2| ensures !lt(b2[l], r2[k]) {
      if k == |r| {
        assert b2[l] == b[j + l] && (l > 0 ==> !lt(b[j + l], b[j]));
      }
    }
  }

  // ------------------------------------------------------------------ passes

  datatype Config<!T> = Config(windowSize: nat, batchSize: nat, sorting: bool, lt: (T, T) -> bool, mergeThreshold: nat)

  /** How many entries of a window of `size` a pass hands to the consumer: all of them at a flush,
      none while the window is not full, and then a batch, or more if that leaves too many. */
  function OutputSize(windowSize: nat, batchSize: nat, size: nat, forced: bool): (n: nat)
    ensures n <= size
    ensures size - n <= windowSize
    ensures forced ==> n == size
    ensures !forced && size < windowSize ==> n == 0
    ensures !forced && size >= windowSize ==> n >= batchSize || n == size
    ensures !forced && n > batchSize ==> size - n == windowSize
  {
    if forced then size
    else if size < windowSize then 0
    else
      var excess := size - windowSize;
      var n := if excess > batchSize then excess else batchSize;
      if n < size then n else size
  }

  function OutputCount<T>(c: Config<T>, size: nat, forced: bool): (n: nat)
    ensures n <= size
    ensures size - n <= c.windowSize
  {
    OutputSize(c.windowSize, c.batchSize, size, forced)
  }

  /** The sorter after a pass: `m` entries merged so far, `d` delivered, and the window. */
  datatype Pass<T> = Pass(m: nat, d: nat, window: seq<T>, forced: bool)

  ghost predicate Fits<T>(p: Pass<T>, input: seq<T>, output: seq<T>) {
    p.m <= |input| && p.d <= |output|
  }

  /** One pass from `p` to `q`: the window and the new entries, sorted if sorting is on, are
      cut in front by exactly the output count. */
  ghost predicate Linked<T>(c: Config<T>, p: Pass<T>, q: Pass<T>, input: seq<T>, output: seq<T>) {
    && Fits(p, input, output) && Fits(q, input, output) && p.m <= q.m && p.d <= q.d
    && var before, after := p.window + input[p.m..q.m], output[p.d..q.d] + q.window;
       && multiset(after) == multiset(before)
       && (if c.sorting then Sorted(after, c.lt) else after == before)
       && q.d - p.d == OutputCount(c, |before|, q.forced)
  }

  ghost predicate Chained<T>(c: Config<T>, passes: seq<Pass<T>>, input: seq<T>, output: seq<T>) {
    && passes != [] && passes[0] == Pass(0, 0, [], false)
    && forall k :: 0 <= k < |passes| - 1 ==> Linked(c, passes[k], passes[k + 1], input, output)
  }

  /** The passes account for all of the output and all of the input but `pending`. */
  ghost predicate Reached<T>(c: Config<T>, passes: seq<Pass<T>>, input: seq<T>, output: seq<T>, window: seq<T>,
                             pending: seq<T>) {
    && Chained(c, passes, input, output)
    && var last := passes[|passes| - 1];
       last.d == |output| && last.window == window && last.m <= |input| && pending == input[last.m..]
  }

  /** `passes` extends `was` by one pass that leaves nothing pending. */
  ghost predicate Passed<T>(c: Config<T>, was: seq<Pass<T>>, passes: seq<Pass<T>>, input: seq<T>, output: seq<T>,
                            window: seq<T>, pending: seq<T>, forced: bool)
  {
    && pending == [] && was != [] && passes == was + [Pass(|input|, |output|, window, forced)]
    && Linked(c, was[|was| - 1], passes[|was|], input, output)
  }

  lemma EmptyReached<T>(c: Config<T>)
    ensures Reached(c, [Pass(0, 0, [], false)], [], [], [], [])
  {
  }

  lemma LinkedExtends<T>(c: Config<T>, p: Pass<T>, q: Pass<T>, input: seq<T>, output: seq<T>, more: seq<T>, out: seq<T>)
    requires Linked(c, p, q, input, output)
    ensures Linked(c, p, q, input + more, output + out)
  {
    assert (input + more)[p.m..q.m] == input[p.m..q.m];
    assert (output + out)[p.d..q.d] == output[p.d..q.d];
  }

  lemma ChainedExtends<T>(c: Config<T>, passes: seq<Pass<T>>, input: seq<T>, output: seq<T>, more: seq<T>, out: seq<T>)
    requires Chained(c, passes, input, output)
    ensures Chained(c, passes, input + more, output + out)
  {
    forall k | 0 <= k < |passes| - 1 ensures Linked(c, passes[k], passes[k + 1], input + more, output + out) {
      LinkedExtends(c, passes[k], passes[k + 1], input, output, more, out);
    }
  }

  /** Whatever was merged is in the window or was delivered. */
  lemma {:induction false} PassConserves<T>(c: Config<T>, passes: seq<Pass<T>>, input: seq<T>, output: seq<T>, k: nat)
    requires Chained(c, passes, input, output) && k < |passes|
    ensures Fits(passes[k], input, output)
    ensures multiset(output[..passes[k].d]) + multiset(passes[k].window) == multiset(input[..passes[k].m])
    ensures passes[k].m == passes[k].d + |passes[k].window|
  {
    if k > 0 {
      PassConserves(c, passes, input, output, k - 1);
      var p, q := passes[k - 1], passes[k];
      assert Linked(c, p, passes[k - 1 + 1], input, output);
      var chunk, added := output[p.d..q.d], input[p.m..q.m];
      assert output[..q.d] == output[..p.d] + chunk && input[..q.m] == input[..p.m] + added;
      SplitMultiset(chunk, q.window, p.window, added);
      Balance(multiset(output[..p.d]), multiset(chunk), multiset(q.window), multiset(p.window), multiset(added),
              multiset(input[..p.m]));
    }
  }

  /** What one pass does with the `size` entries before it: at a flush it delivers all; below the
      window size none; else a batch, or the excess over the window if that is more, or all if
      there are not that many. What it delivers is in order and not above what it keeps. */
  lemma PassDelivers<T(!new)>(c: Config<T>, passes: seq<Pass<T>>, input: seq<T>, output: seq<T>, k: nat)
    requires Chained(c, passes, input, output) && 0 < k < |passes|
    ensures passes[k - 1].m <= passes[k].m && passes[k - 1].d <= passes[k].d <= |output|
    ensures var size, n := passes[k].m - passes[k - 1].d, passes[k].d - passes[k - 1].d;
            && size == |passes[k - 1].window| + passes[k].m - passes[k - 1].m
            && n <= size && |passes[k].window| == size - n <= c.windowSize
            && (passes[k].forced ==> n == size)
            && (!passes[k].forced && size < c.windowSize ==> n == 0)
            && (!passes[k].forced && size >= c.windowSize ==> n >= c.batchSize || n == size)
            && (!passes[k].forced && n > c.batchSize ==> size - n == c.windowSize)
    ensures var chunk := output[passes[k - 1].d..passes[k].d];
            c.sorting ==> Sorted(chunk, c.lt) && Below(chunk, passes[k].window, c.lt)
  {
    PassConserves(c, passes, input, output, k - 1);
    PassConserves(c, passes, input, output, k);
    var p, q := passes[k - 1], passes[k];
    assert Linked(c, p, passes[k - 1 + 1], input, output);
    hide Sorted, Below;
    if c.sorting {
      SortedParts(output[p.d..q.d], q.window, c.lt);
    }
  }

  lemma SplitMultiset<T>(a: seq<T>, b: seq<T>, c: seq<T>, d: seq<T>)
    requires multiset(a + b) == multiset(c + d)
    ensures multiset(a) + multiset(b) == multiset(c) + multiset(d) && |a| + |b| == |c| + |d|
  {
    assert |multiset(a + b)| == |multiset(c + d)|;
  }

  lemma Balance<T>(x: multiset<T>, c: multiset<T>, q: multiset<T>, p: multiset<T>, a: multiset<T>, y: multiset<T>)
    requires x + p == y && c + q == p + a
    ensures (x + c) + q == y + a
  {
    assert (x + c) + q == x + (c + q);
    assert y + a == x + (p + a);
  }

  /** Cutting the merged entries after the output count extends the chain by one pass. */
  lemma PassLinks<T>(c: Config<T>, was: seq<Pass<T>>, input: seq<T>, output: seq<T>,
                     window: seq<T>, pending: seq<T>, out: seq<T>, rest: seq<T>, forced: bool)
    returns (passes: seq<Pass<T>>)
    requires Reached(c, was, input, output, window, pending)
    requires multiset(out + rest) == multiset(window + pending) && |out| == OutputCount(c, |out + rest|, forced)
    requires if c.sorting then Sorted(out + rest, c.lt) else out + rest == window + pending
    ensures Reached(c, passes, input, output + out, rest, [])
    ensures Passed(c, was, passes, input, output + out, rest, [], forced)
  {
    var p, q := was[|was| - 1], Pass(|input|, |output| + |out|, rest, forced);
    var output2 := output + out;
    passes := was + [q];
    assert output2[p.d..q.d] == out;
    assert p.window + input[p.m..q.m] == window + pending;
    assert |multiset(out + rest)| == |multiset(window + pending)|;
    assert Linked(c, p, q, input, output2);
    ChainedExtends(c, was, input, output, [], out);
    assert input + [] == input;
    hide Linked;
  }

  /** output_entries and maintain_window_size: the front of the merged entries goes out, the
      rest stays; it fits the window, so trimming discards nothing. */
  method CutWindow<T>(c: Config<T>, merged: seq<T>, forced: bool) returns (out: seq<T>, rest: seq<T>)
    ensures out + rest == merged && |out| == OutputCount(c, |merged|, forced)
    ensures forced ==> rest == []
  {
    var n := OutputCount(c, |merged|, forced);
    out := merged[..n];
    rest := TrimWindow(merged[n..], c.windowSize);
  }

  method TrimWindow<T>(window: seq<T>, size: nat) returns (r: seq<T>)
    ensures |r| <= size && |r| <= |window| && r == window[|window| - |r|..] && (|window| <= size ==> r == window)
  {
    r := window;
    if |window| > size {
      r := window[|window| - size..];
    }
  }

  // ------------------------------------------------------------------ the class

  class SlidingWindowSorter<T(!new)> {
    var config: Config<T>
    var window: seq<T>
    var pending: seq<T>
    var processed: nat  // total_processed_
    // entries received and delivered before and since the last reconfiguration, and its passes
    ghost var pastIn: seq<T>
    ghost var pastOut: seq<T>
    ghost var input: seq<T>
    ghost var output: seq<T>
    ghost var passes: seq<Pass<T>>

    ghost predicate Valid()
      reads this
    {
      && StrictWeak(config.lt)
      && multiset(pastOut) == multiset(pastIn)
      && processed == |pastOut| + |output|
      && Reached(config, passes, input, output, window, pending)
    }

    /** Nothing is lost or duplicated, across every call. */
    lemma Conserved()
      requires Valid()
      ensures multiset(pastOut + output) + multiset(window) + multiset(pending) == multiset(pastIn + input)
      ensures processed == |pastOut + output|
    {
      var k := |passes| - 1;
      PassConserves(config, passes, input, output, k);
      assert output[..passes[k].d] == output;
      assert input == input[..passes[k].m] + pending;
    }

    /** The window is sorted after every call when sorting is on. */
    lemma WindowSorted()
      requires Valid()
      ensures config.sorting ==> Sorted(window, config.lt)
      ensures |window| <= config.windowSize
    {
      var k := |passes| - 1;
      if k > 0 {
        var p, q := passes[k - 1], passes[k];
        assert Linked(config, p, passes[k - 1 + 1], input, output);
        SortedParts(output[p.d..q.d], q.window, config.lt);
        assert |multiset(output[p.d..q.d] + q.window)| == |p.window + input[p.m..q.m]|;
      }
    }

    constructor (c: Config<T>)
      requires StrictWeak(c.lt)
      ensures Valid() && config == c && pastIn == input == pastOut == output == []
      ensures window == pending == [] && passes == [Pass(0, 0, [], false)]
    {
      config, window, pending, processed := c, [], [], 0;
      pastIn, pastOut, input, output := [], [], [], [];
      passes := [Pass(0, 0, [], false)];
    }

    method AddEntries(entries: seq<T>)
      requires Valid()
      modifies this
      ensures Valid() && config == old(config) && pastIn == old(pastIn) && pastOut == old(pastOut)
      ensures input == old(input) + entries && old(output) <= output
      ensures if entries == [] || |old(pending)| + |entries| < config.batchSize
              then pending == old(pending) + entries && window == old(window) && output == old(output)
                   && passes == old(passes)
              else Passed(config, old(passes), passes, input, output, window, pending, false)
    {
      if entries == [] {
        assert input == input + entries;
        return;
      }
      ChainedExtends(config, passes, input, output, entries, []);
      assert output + [] == output;
      pending := pending + entries;
      input := input + entries;
      if |pending| >= config.batchSize {
        ProcessBatch(false);
      }
    }

    method AddEntry(entry: T)
      requires Valid()
      modifies this
      ensures Valid() && config == old(config) && pastIn == old(pastIn) && pastOut == old(pastOut)
      ensures input == old(input) + [entry] && old(output) <= output
      ensures if |old(pending)| + 1 < config.batchSize
              then pending == old(pending) + [entry] && window == old(window) && output == old(output)
                   && passes == old(passes)
              else Passed(config, old(passes), passes, input, output, window, pending, false)
    {
      AddEntries([entry]);
    }

    method Flush()
      requires Valid()
      modifies this
      ensures Valid() && config == old(config) && pastIn == old(pastIn) && pastOut == old(pastOut)
      ensures input == old(input) && old(output) <= output
      ensures window == pending == [] && |output| == |input|
      ensures if old(window) == old(pending) == [] then passes == old(passes) && output == old(output)
              else Passed(config, old(passes), passes, input, output, window, pending, true)
    {
      if pending != [] || window != [] {
        ProcessBatch(true);
      }
      FlushedSizes();
    }

    lemma FlushedSizes()
      requires Valid() && window == pending == []
      ensures |output| == |input|
    {
      PassConserves(config, passes, input, output, |passes| - 1);
    }

    method Reconfigure(c: Config<T>)
      requires Valid() && StrictWeak(c.lt)
      modifies this
      ensures Valid() && config == c && window == pending == input == output == []
      ensures pastIn == old(pastIn + input) && old(pastOut + output) <= pastOut
      ensures |pastOut| == |pastIn|
    {
      Flush();
      Conserved();
      ghost var received, delivered := pastIn + input, pastOut + output;
      assert multiset(delivered) == multiset(received) && |delivered| == |received|;
      hide Reached, Passed;
      assert Reached(c, [Pass(0, 0, [], false)], [], [], [], []) by { EmptyReached(c); }
      config, pastIn, pastOut := c, received, delivered;
      input, output, passes := [], [], [Pass(0, 0, [], false)];
    }

    /** process_batch: merge, output, and trim a window that is never over-full by then. */
    method ProcessBatch(forced: bool)
      requires Valid()
      modifies this
      ensures Valid() && config == old(config) && pastIn == old(pastIn) && pastOut == old(pastOut)
      ensures input == old(input) && old(output) <= output
      ensures if old(window) == old(pending) == []
              then window == pending == [] && output == old(output) && passes == old(passes)
              else Passed(config, old(passes), passes, input, output, window, pending, forced)
      ensures forced ==> window == []
    {
      if pending == [] && window == [] {
        return;
      }
      WindowSorted();
      var merged := SortAndMerge();
      var out, rest := CutWindow(config, merged, forced);
      ghost var chain := PassLinks(config, passes, input, output, window, pending, out, rest, forced);
      hide Reached, Passed, StrictWeak, Sorted, OutputCount;
      window, pending, processed := rest, [], processed + |out|;
      output, passes := output + out, chain;
    }

    /** sort_and_merge, or plain appending when sorting is off. */
    method SortAndMerge() returns (merged: seq<T>)
      requires Valid() && (config.sorting ==> Sorted(window, config.lt))
      ensures multiset(merged) == multiset(window + pending)
      ensures if config.sorting then Sorted(merged, config.lt) else merged == window + pending
    {
      if !config.sorting {
        return window + pending;
      }
      if pending == [] {
        assert window + pending == window;
        return window;
      }
      var batch;
      if |pending| <= config.mergeThreshold {
        batch := InsertionSort(pending, config.lt);
      } else {
        batch := StandardSort(pending, config.lt);
      }
      if window == [] {
        assert window + pending == pending;
        return batch;
      }
      merged := Merge(window, batch, config.lt);
    }
  }
}
