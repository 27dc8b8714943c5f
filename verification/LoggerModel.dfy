/**
 The logger as a transition system: threads that log, add and remove sinks, sweep and shut
 down; the consumer thread; and one serial strand per registered sink. The ring is the FIFO
 queue that the disruptor refines, so it is the sequence of published items.
 */
module LoggerModel {
  import opened Basics
  import opened DispatchWord
  import opened LogSink

  const DROP_ALL := 0x7F

  datatype Item = Entry(e: Event) | Stop

  datatype Task = Batch(es: seq<Event>) | Maintain | Flush(caller: nat)

  /** A registered sink with its strand. `offered` holds the events of every dispatch that
      reached it, `born` the number of the commit that added it, `fixed` that its threshold
      never changed. */
  datatype Sink = Sink(threshold: nat, filter: PrefixFilter, status: Status, queue: seq<Task>,
                       account: Account, offered: seq<Event>, born: nat, fixed: bool)

  /** What follows the publication of the gate. */
  datatype After = Finish | ThenBump(commit: nat)

  /** A thread: outside the logger, computing the gate under the registry lock, about to bump
      the version for its commit, or past the gate and about to publish; or, shutting down,
      waiting for the consumer to stop, then posting a flush to the sinks of table `snap` and
      waiting until it has run on each of them. `left` holds the sinks whose flush has yet to
      run, which the source counts. */
  datatype Pc =
    | Out
    | Gating(at: nat, min: nat, after: After)
    | Bumping(commit: nat)
    | Publishing(item: Item)
    | Joining
    | Flushing(snap: nat, at: nat, left: set<nat>)

  /** The consumer. `halt` says that the batch ended at the shutdown sentinel; `checked` is the
      number of version bumps at the version check. */
  datatype Consumer =
    | Starting
    | Opening(version: nat)
    | Collecting
    | Checking(batch: seq<Event>, halt: bool)
    | Refreshing(batch: seq<Event>, halt: bool, checked: nat)
    | Dispatching(batch: seq<Event>, halt: bool, checked: nat, at: nat)
    | Halted

  /** `tables` is the history of registry tables, the last one being current, and `bumped` the
      commits in the order of their version bumps; the version is their number modulo 2^32.
      `cached` and `seen` are the consumer's table and the bumps its cached version counts;
      `logged` holds every event given to the logger, `dropped` those the gate kept out. */
  datatype Logger = Logger(
    sinks: seq<Sink>, tables: seq<seq<nat>>, holder: int, gate: nat, bumped: seq<nat>,
    ring: seq<Item>, logged: seq<Event>, dropped: seq<Event>, ths: seq<Pc>,
    consumer: Consumer, next: nat, cached: nat, seen: nat)

  function Table(s: Logger): seq<nat> {
    if s.tables == [] then [] else s.tables[|s.tables| - 1]
  }

  function Version(bumps: nat): nat {
    bumps % TWO_32
  }

  datatype Action =
    | Add(threshold: nat, filter: PrefixFilter, status: Status)
    | Remove(id: nat)
    | Sweep
    | Log(e: Event)
    | Report(e: Event)
    | Shutdown
    | SetThreshold(id: nat, level: nat)
    | PostMaintain(id: nat)
    | Go

  ghost function Move(s: Logger, t: nat, pc: Pc): Logger
    requires t < |s.ths|
  {
    s.(ths := s.ths[t := pc])
  }

  ghost function SetSink(s: Logger, id: nat, k: Sink): Logger
    requires id < |s.sinks|
  {
    s.(sinks := s.sinks[id := k])
  }

  /** The critical section of add_sink and remove_sink up to the gate: swap the table. */
  ghost function Commit(s: Logger, t: nat, table: seq<nat>): Logger
    requires t < |s.ths|
  {
    Move(s.(tables := s.tables + [table], holder := t), t, Gating(0, DROP_ALL, ThenBump(|s.tables|)))
  }

  /** The consumer has met the shutdown sentinel and cleared `running_`. */
  predicate Halting(c: Consumer) {
    c.Halted? || ((c.Checking? || c.Refreshing? || c.Dispatching?) && c.halt)
  }

  ghost predicate Begins(s: Logger, t: nat, a: Action, s2: Logger)
    requires t < |s.ths|
  {
    match a
    case Add(threshold, filter, status) =>
      && s.holder == -1 && threshold < 256
      && var k := Sink(threshold, filter, status, [], Account([], [], []), [], |s.tables|, true);
         s2 == Commit(s.(sinks := s.sinks + [k]), t, Table(s) + [|s.sinks|])
    case Remove(id) => s.holder == -1 && s2 == if id in Table(s) then Commit(s, t, Without(Table(s), id)) else s
    case Sweep => s.holder == -1 && s2 == Move(s.(holder := t), t, Gating(0, DROP_ALL, Finish))
    case Log(e) =>
      && var l := s.(logged := s.logged + [e]);
         s2 == if e.level >= s.gate then Move(l, t, Publishing(Entry(e))) else l.(dropped := s.dropped + [e])
    case Report(e) => s2 == Move(s.(logged := s.logged + [e]), t, Publishing(Entry(e)))
    case Shutdown => s2 == if Halting(s.consumer) then s else Move(s, t, Publishing(Stop))
    case SetThreshold(id, level) =>
      id < |s.sinks| && level < 256 && s2 == SetSink(s, id, s.sinks[id].(threshold := level, fixed := false))
    case PostMaintain(id) =>
      id < |s.sinks| && s2 == SetSink(s, id, s.sinks[id].(queue := s.sinks[id].queue + [Maintain]))
    case Go => false
  }

  ghost predicate ThreadStep(s: Logger, t: nat, a: Action, s2: Logger) {
    && t < |s.ths|
    && match s.ths[t]
       case Out => Begins(s, t, a, s2)
       case Gating(at, min, after) =>
         if at < |Table(s)| then
           && Table(s)[at] < |s.sinks|
           && var level := s.sinks[Table(s)[at]].threshold;
              s2 == Move(s, t, Gating(at + 1, if level < min then level else min, after))
         else
           s2 == Move(s.(gate := min, holder := -1), t, if after.Finish? then Out else Bumping(after.commit))
       case Bumping(commit) => s2 == Move(s.(bumped := s.bumped + [commit]), t, Out)
       case Publishing(item) => s2 == Move(s.(ring := s.ring + [item]), t, if item.Stop? then Joining else Out)
       case Joining =>
         && s.consumer.Halted? && s.holder == -1 && s.tables != []
         && s2 == Move(s, t, Flushing(|s.tables| - 1, 0, set id | id in Table(s)))
       case Flushing(snap, at, left) =>
         && snap < |s.tables|
         && var table := s.tables[snap];
            if at < |table| then
              && table[at] < |s.sinks|
              && var k := s.sinks[table[at]];
                 s2 == Move(SetSink(s, table[at], k.(queue := k.queue + [Flush(t)])), t, Flushing(snap, at + 1, left))
            else left == {} && s2 == Move(s, t, Out)
  }

  function Events(items: seq<Item>): seq<Event> {
    if items == [] then []
    else Events(items[..|items| - 1]) + (if items[|items| - 1].Entry? then [items[|items| - 1].e] else [])
  }

  function MaxLevel(es: seq<Event>): nat {
    if es == [] then 0
    else
      var m := MaxLevel(es[..|es| - 1]);
      if es[|es| - 1].level > m then es[|es| - 1].level else m
  }

  /** Collecting the items from `next` up to `hi`, the first sentinel included and last. */
  ghost predicate Collects(s: Logger, hi: nat, s2: Logger) {
    && s.next < hi <= |s.ring|
    && (forall i :: s.next <= i < hi - 1 ==> s.ring[i].Entry?)
    && var batch, halt := Events(s.ring[s.next..hi]), s.ring[hi - 1].Stop?;
       s2 == s.(next := hi,
                consumer := if batch != [] then Checking(batch, halt) else if halt then Halted else Collecting)
  }

  /** Offering a batch to one sink: skip it, count it as lost, or post it. */
  function Offer(k: Sink, batch: seq<Event>): Sink {
    var o := k.(offered := k.offered + batch);
    if MaxLevel(batch) < k.threshold then o.(account := k.account.(rejected := k.account.rejected + batch))
    else if k.status == Dead then o.(account := k.account.(lost := k.account.lost + batch))
    else o.(queue := k.queue + [Batch(batch)])
  }

  ghost predicate ConsumerStep(s: Logger, hi: nat, s2: Logger) {
    match s.consumer
    case Starting => s2 == s.(consumer := Opening(|s.bumped|))
    case Opening(version) =>
      s.holder == -1 && s.tables != [] && s2 == s.(consumer := Collecting, seen := version, cached := |s.tables| - 1)
    case Collecting => Collects(s, hi, s2)
    case Checking(batch, halt) =>
      s2 == s.(consumer := if Version(|s.bumped|) != Version(s.seen) then Refreshing(batch, halt, |s.bumped|)
                           else Dispatching(batch, halt, |s.bumped|, 0))
    case Refreshing(batch, halt, checked) =>
      && s.holder == -1 && s.tables != []
      && s2 == s.(consumer := Dispatching(batch, halt, checked, 0), seen := checked, cached := |s.tables| - 1)
    case Dispatching(batch, halt, checked, at) =>
      && s.cached < |s.tables|
      && var table := s.tables[s.cached];
         if at < |table| then
           && table[at] < |s.sinks|
           && s2 == SetSink(s, table[at], Offer(s.sinks[table[at]], batch))
                    .(consumer := Dispatching(batch, halt, checked, at + 1))
         else s2 == s.(consumer := if halt then Halted else Collecting)
    case Halted => false
  }

  /** The strand of a sink runs its next task. A live sink gets through the first `n` events of a
      batch, the next write failing; maintenance revives a Dead sink or not, and kills none. */
  ghost predicate StrandRuns(k: Sink, n: nat, k2: Sink) {
    && k.queue != []
    && match k.queue[0]
       case Batch(es) =>
         && n <= |es|
         && k2 == k.(queue := k.queue[1..], status := k2.status,
                     account := Book(k.threshold, k.filter, k.account, es, n))
         && if k.status == Dead then n == 0 && k2.status == Dead
            else if n < |es| then ShouldLog(k.threshold, k.filter, es[n]) && k2.status == Dead
            else k2.status != Dead
       case Maintain =>
         && k2 == k.(queue := k.queue[1..], status := k2.status)
         && (if k.status == Dead then k2.status != Degraded else k2.status != Dead)
       case Flush(_) => k2 == k.(queue := k.queue[1..])
  }

  /** A flush that ran on sink `id` counts down for the thread that posted it. */
  ghost function CountDown(ths: seq<Pc>, task: Task, id: nat): (r: seq<Pc>)
    ensures |r| == |ths|
  {
    if task.Flush? && task.caller < |ths| && ths[task.caller].Flushing? then
      ths[task.caller := ths[task.caller].(left := ths[task.caller].left - {id})]
    else ths
  }

  ghost predicate StrandStep(s: Logger, id: nat, n: nat, s2: Logger) {
    && id < |s.sinks| == |s2.sinks|
    && StrandRuns(s.sinks[id], n, s2.sinks[id])
    && s2 == SetSink(s, id, s2.sinks[id]).(ths := CountDown(s.ths, s.sinks[id].queue[0], id))
  }

  ghost predicate Next(s: Logger, s2: Logger) {
    || (exists t: nat, a: Action {:trigger ThreadStep(s, t, a, s2)} :: ThreadStep(s, t, a, s2))
    || (exists hi: nat {:trigger ConsumerStep(s, hi, s2)} :: ConsumerStep(s, hi, s2))
    || (exists id: nat, n: nat {:trigger StrandStep(s, id, n, s2)} :: StrandStep(s, id, n, s2))
  }

  ghost predicate Init(s: Logger) {
    && s.sinks == [] && s.tables == [[]] && s.holder == -1 && s.gate == DROP_ALL && s.bumped == []
    && s.ring == [] && s.logged == [] && s.dropped == []
    && s.consumer == Starting && s.next == 0 && s.cached == 0 && s.seen == 0
    && forall t :: 0 <= t < |s.ths| ==> s.ths[t] == Out
  }

  ghost predicate Run(r: seq<Logger>) {
    && r != [] && Init(r[0])
    && forall k :: 0 <= k < |r| - 1 ==> Next(r[k], r[k + 1])
  }

  /** The consumer does not check the version when a nonzero multiple of 2^32 bumps have gone by
      since the ones its cached version counts. */
  ghost predicate Prompt(s: Logger) {
    s.consumer.Checking? && |s.bumped| > s.seen ==> (|s.bumped| - s.seen) % TWO_32 != 0
  }
}
