/**
 The positions of the passes depend only on the window size, the batch size and the sizes of the
 calls. So whether the sorter will deliver a sorted stream can be told from the calls before
 they are made.
 */
module SorterPlan {
  import opened Sorter
  import opened SorterOrder

  /** A call: entries are added, or the sorter is flushed. */
  datatype Call<T> = Add(entries: seq<T>) | FlushAll

  /** What a call is to the plan: its size. */
  datatype Step = Adds(n: nat) | Flushes

  /** `m` entries merged and `d` delivered by the end of a pass. */
  datatype Position = Position(m: nat, d: nat)

  datatype Plan = Plan(positions: seq<Position>, total: nat)

  predicate PlanOk(plan: Plan) {
    && plan.positions != []
    && var last := plan.positions[|plan.positions| - 1];
       last.d <= last.m <= plan.total
  }

  function Advance(windowSize: nat, batchSize: nat, plan: Plan, step: Step): (r: Plan)
    requires PlanOk(plan)
    ensures PlanOk(r)
  {
    var last := plan.positions[|plan.positions| - 1];
    match step
    case Adds(n) =>
      var total := plan.total + n;
      if n == 0 || total - last.m < batchSize then plan.(total := total)
      else
        var d := last.d + OutputSize(windowSize, batchSize, total - last.d, false);
        Plan(plan.positions + [Position(total, d)], total)
    case Flushes =>
      if last.d == plan.total then plan
      else plan.(positions := plan.positions + [Position(plan.total, plan.total)])
  }

  /** The plan after some calls, from their sizes. */
  function PlanOf(windowSize: nat, batchSize: nat, steps: seq<Step>): (r: Plan)
    ensures PlanOk(r)
  {
    if steps == [] then Plan([Position(0, 0)], 0)
    else Advance(windowSize, batchSize, PlanOf(windowSize, batchSize, steps[..|steps| - 1]), steps[|steps| - 1])
  }

  function StepOf<T>(call: Call<T>): Step {
    if call.Add? then Adds(|call.entries|) else Flushes
  }

  function Sizes<T>(calls: seq<Call<T>>): (r: seq<Step>)
    ensures |r| == |calls| && forall i :: 0 <= i < |calls| ==> r[i] == StepOf(calls[i])
  {
    seq(|calls|, i requires 0 <= i < |calls| => StepOf(calls[i]))
  }

  /** Everything the calls add, in order. */
  function Received<T>(calls: seq<Call<T>>): seq<T> {
    if calls == [] then []
    else
      var last := calls[|calls| - 1];
      Received(calls[..|calls| - 1]) + if last.Add? then last.entries else []
  }

  // ------------------------------------------------------------------ the sorter follows the plan

  ghost predicate Follows<T>(passes: seq<Pass<T>>, input: seq<T>, plan: Plan) {
    && |plan.positions| == |passes| && plan.total == |input|
    && forall k :: 0 <= k < |passes| ==> plan.positions[k] == Position(passes[k].m, passes[k].d)
  }

  /** The position of a further pass is what the sizes say. */
  lemma PassPosition<T>(c: Config<T>, was: seq<Pass<T>>, passes: seq<Pass<T>>, input: seq<T>, output: seq<T>,
                        window: seq<T>, pending: seq<T>, forced: bool)
    requires Passed(c, was, passes, input, output, window, pending, forced)
    requires var p := was[|was| - 1]; p.m == p.d + |p.window| && p.m <= |input|
    ensures |passes| == |was| + 1 && passes[..|was|] == was && was[|was| - 1].d <= |input|
    ensures var q, p := passes[|was|], was[|was| - 1];
            q.m == |input| && q.d == p.d + OutputCount(c, |input| - p.d, forced)
  {
  }

  lemma LastPass<T>(c: Config<T>, passes: seq<Pass<T>>, input: seq<T>, output: seq<T>, window: seq<T>, pending: seq<T>)
    requires Reached(c, passes, input, output, window, pending)
    ensures var p := passes[|passes| - 1];
            && p.m == p.d + |window| && |input| == p.m + |pending| && p.window == window
  {
    PassConserves(c, passes, input, output, |passes| - 1);
  }

  /** Adding entries moves the passes as the plan says. */
  lemma AddFollows<T>(c: Config<T>, was: seq<Pass<T>>, received: seq<T>, delivered: seq<T>, window: seq<T>,
                      pending: seq<T>, entries: seq<T>, passes: seq<Pass<T>>, output: seq<T>, window2: seq<T>,
                      pending2: seq<T>, plan: Plan)
    requires Reached(c, was, received, delivered, window, pending) && PlanOk(plan) && Follows(was, received, plan)
    requires if entries == [] || |pending| + |entries| < c.batchSize then passes == was
             else Passed(c, was, passes, received + entries, output, window2, pending2, false)
    ensures Follows(passes, received + entries, Advance(c.windowSize, c.batchSize, plan, Adds(|entries|)))
  {
    LastPass(c, was, received, delivered, window, pending);
    if entries != [] && |pending| + |entries| >= c.batchSize {
      PassPosition(c, was, passes, received + entries, output, window2, pending2, false);
    }
    hide Reached, Passed, OutputSize;
  }

  lemma FlushFollows<T>(c: Config<T>, was: seq<Pass<T>>, input: seq<T>, delivered: seq<T>, window: seq<T>,
                        pending: seq<T>, passes: seq<Pass<T>>, output: seq<T>, window2: seq<T>, pending2: seq<T>,
                        plan: Plan)
    requires Reached(c, was, input, delivered, window, pending) && PlanOk(plan) && Follows(was, input, plan)
    requires if window == pending == [] then passes == was
             else Passed(c, was, passes, input, output, window2, pending2, true)
    ensures Follows(passes, input, Advance(c.windowSize, c.batchSize, plan, Flushes))
  {
    LastPass(c, was, input, delivered, window, pending);
    if window != [] || pending != [] {
      PassPosition(c, was, passes, input, output, window2, pending2, true);
    }
    hide Reached, Passed;
  }

  // ------------------------------------------------------------------ deciding beforehand

  /** Timeliness of a plan for a stream: a matter of the calls alone. */
  ghost predicate TimelyPlan<T>(positions: seq<Position>, input: seq<T>, lt: (T, T) -> bool) {
    forall k, i :: 0 <= k < |positions| && positions[k].m <= i < |input| ==> Keeps(positions[k], input, i, lt)
  }

  ghost predicate Keeps<T>(p: Position, input: seq<T>, i: nat, lt: (T, T) -> bool)
    requires p.m <= i < |input|
  {
    CountLe(input[..p.m], input[i], lt) >= p.d
  }

  lemma PlanIsTimely<T>(c: Config<T>, passes: seq<Pass<T>>, input: seq<T>, plan: Plan)
    requires Follows(passes, input, plan)
    ensures TimelyPlan(plan.positions, input, c.lt) <==> Timely(c, passes, input)
  {
    hide CountLe;
    if TimelyPlan(plan.positions, input, c.lt) {
      forall k, i | 0 <= k < |passes| && passes[k].m <= i < |input| ensures Suits(c, passes[k], input, i) {
        assert Keeps(plan.positions[k], input, i, c.lt);
      }
    }
    if Timely(c, passes, input) {
      forall k, i | 0 <= k < |passes| && plan.positions[k].m <= i < |input|
        ensures Keeps(plan.positions[k], input, i, c.lt)
      {
        assert Suits(c, passes[k], input, i);
      }
    }
  }

  /** A last flush does not matter to timeliness. */
  lemma FlushIsTimely<T>(windowSize: nat, batchSize: nat, plan: Plan, input: seq<T>, lt: (T, T) -> bool)
    requires PlanOk(plan) && plan.total == |input|
    ensures TimelyPlan(Advance(windowSize, batchSize, plan, Flushes).positions, input, lt)
            <==> TimelyPlan(plan.positions, input, lt)
  {
    hide Keeps;
    var more := Advance(windowSize, batchSize, plan, Flushes).positions;
    assert forall k :: 0 <= k < |plan.positions| ==> more[k] == plan.positions[k];
  }

  /** Given some calls and then flushed, the sorter has delivered a sorted stream if and only if
      the plan, computed from the sizes of the calls, is timely for the entries. */
  method Deliver<T(!new)>(c: Config<T>, calls: seq<Call<T>>) returns (s: SlidingWindowSorter<T>)
    requires StrictWeak(c.lt) && c.sorting
    ensures s.Valid() && s.config == c && s.input == Received(calls) && s.window == s.pending == []
    ensures Sorted(s.output, c.lt)
            <==> TimelyPlan(PlanOf(c.windowSize, c.batchSize, Sizes(calls)).positions, Received(calls), c.lt)
  {
    s := Feed(c, calls);
    ghost var plan := PlanOf(c.windowSize, c.batchSize, Sizes(calls));
    ghost var was, delivered, window, pending := s.passes, s.output, s.window, s.pending;
    s.Flush();
    FlushFollows(c, was, s.input, delivered, window, pending, s.passes, s.output, s.window, s.pending, plan);
    hide Reached, Passed, Sorted, StrictWeak, Follows, TimelyPlan, Timely, PlanOf, Advance, Received;
    Decided(s, plan);
  }

  lemma Decided<T(!new)>(s: SlidingWindowSorter<T>, plan: Plan)
    requires s.Valid() && s.config.sorting && s.window == s.pending == [] && PlanOk(plan) && plan.total == |s.input|
    requires Follows(s.passes, s.input, Advance(s.config.windowSize, s.config.batchSize, plan, Flushes))
    ensures Sorted(s.output, s.config.lt) <==> TimelyPlan(plan.positions, s.input, s.config.lt)
  {
    var c := s.config;
    SortedIffTimely(c, s.passes, s.input, s.output);
    PlanIsTimely(c, s.passes, s.input, Advance(c.windowSize, c.batchSize, plan, Flushes));
    FlushIsTimely(c.windowSize, c.batchSize, plan, s.input, c.lt);
  }

  /** After any calls the positions of the passes are those of the plan. */
  method Feed<T(!new)>(c: Config<T>, calls: seq<Call<T>>) returns (s: SlidingWindowSorter<T>)
    requires StrictWeak(c.lt)
    ensures fresh(s) && s.Valid() && s.config == c && s.input == Received(calls)
    ensures Follows(s.passes, s.input, PlanOf(c.windowSize, c.batchSize, Sizes(calls)))
  {
    s := new SlidingWindowSorter(c);
    ghost var steps := Sizes(calls);
    NothingYet(c, calls);
    hide Reached, StrictWeak, Follows, PlanOf, Advance, Received, PlanOk;
    for i := 0 to |calls|
      invariant fresh(s) && s.Valid() && s.config == c && s.input == Received(calls[..i])
      invariant Follows(s.passes, s.input, PlanOf(c.windowSize, c.batchSize, steps[..i]))
    {
      ghost var plan := PlanOf(c.windowSize, c.batchSize, steps[..i]);
      Serve(s, calls[i], plan);
      OneCallMore(c, calls, i);
    }
    assert calls[..|calls|] == calls && steps[..|calls|] == steps;
  }

  lemma NothingYet<T>(c: Config<T>, calls: seq<Call<T>>)
    ensures Received(calls[..0]) == []
    ensures Follows([Pass(0, 0, [], false)], Received(calls[..0]), PlanOf(c.windowSize, c.batchSize, Sizes(calls)[..0]))
  {
  }

  lemma OneCallMore<T>(c: Config<T>, calls: seq<Call<T>>, i: nat)
    requires i < |calls|
    ensures Received(calls[..i + 1]) == Received(calls[..i]) + if calls[i].Add? then calls[i].entries else []
    ensures var plan := PlanOf(c.windowSize, c.batchSize, Sizes(calls)[..i]);
            PlanOf(c.windowSize, c.batchSize, Sizes(calls)[..i + 1])
            == Advance(c.windowSize, c.batchSize, plan, StepOf(calls[i]))
  {
    assert calls[..i + 1][..i] == calls[..i] && Sizes(calls)[..i + 1][..i] == Sizes(calls)[..i];
    hide Advance;
  }

  /** One call. */
  method Serve<T(!new)>(s: SlidingWindowSorter<T>, call: Call<T>, ghost plan: Plan)
    requires s.Valid() && PlanOk(plan) && Follows(s.passes, s.input, plan)
    modifies s
    ensures s.Valid() && s.config == old(s.config)
    ensures s.input == old(s.input) + if call.Add? then call.entries else []
    ensures Follows(s.passes, s.input, Advance(s.config.windowSize, s.config.batchSize, plan, StepOf(call)))
  {
    ghost var c, was, input, output := s.config, s.passes, s.input, s.output;
    ghost var window, pending := s.window, s.pending;
    hide Reached, Passed, Follows, Advance, StrictWeak;
    if call.Add? {
      s.AddEntries(call.entries);
      AddFollows(c, was, input, output, window, pending, call.entries, s.passes, s.output, s.window, s.pending, plan);
    } else {
      s.Flush();
      FlushFollows(c, was, input, output, window, pending, s.passes, s.output, s.window, s.pending, plan);
      assert s.input == input + [];
    }
  }
}
