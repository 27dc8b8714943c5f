/**
 The resource pool as a transition system.

 The state is a shared part (the fields of the pool, the waiter nodes, the tokens
 handed to callers) and one program counter per thread. A step is taken by one
 thread and reads or writes at most one location that other threads may access
 without the pool mutex; plain accesses protected by the mutex, or owned by the
 thread, are folded into the neighbouring step. Steps interleave in any order, which
 is the sequentially consistent reading of the source.
 */
module PoolModel {
  import opened Basics

  const BITS_PER_WORD := 64

  datatype SlotState = Vacant | Reserved | Idle | Borrowed | Quarantined

  datatype Deadline = Never | At(time: int)

  predicate Expired(d: Deadline, now: int) {
    d.At? && now >= d.time
  }

  datatype WaiterKind = Sync | Async(context: nat)
  datatype WaiterState = Queued | Assigned | TimedOut | Cancelled | ShutDown

  /** A waiter: a stack frame of a blocked thread or the heap node of an asynchronous call.
      `linked` records that the node was pushed on the FIFO, `selector` the thread that
      unlinked it, `registered` membership in its execution context's registry, `posted` a
      scheduled completion, `pinned` that its notification mutex is held, and `taken` that
      its result was consumed (or its frame returned). */
  datatype Node = Node(kind: WaiterKind, state: WaiterState, deadline: Deadline, slot: nat,
                       owner: nat, linked: bool, ticket: nat, selector: int,
                       registered: bool, posted: bool, pinned: bool, notified: bool, taken: bool)

  /** What a call to try_acquire or acquire returns: a Borrowed token for a slot, or why not. */
  datatype Answer = Lent(index: nat) | Exhausted | TooLate | Shut

  datatype Shared = Shared(
    states: seq<SlotState>, vacant: seq<nat>, quarantined: seq<nat>, bits: set<nat>,
    owner: int,                        // thread holding the pool mutex, -1 when it is free
    nodes: seq<Node>, queue: seq<nat>, gate: int, tickets: nat,
    usable: int, reserved: int, closed: bool, now: int,
    borrowed: multiset<nat>,           // live Borrowed tokens
    filled: multiset<nat>,             // live ReservedSlot tokens holding an object
    blank: multiset<nat>,              // live ReservedSlot tokens holding none
    built: seq<nat>, torn: seq<nat>,   // constructor and destructor calls per slot
    stopping: set<nat>, stopped: set<nat>,  // contexts shutting down; contexts past their prepare phase
    answers: map<nat, Answer>)              // what each thread was last answered, from the moment it was decided

  datatype Call = Call(kind: WaiterKind, deadline: Deadline)

  /** Why a thread scans the idle words. */
  datatype Purpose = ForTry | ForFast(call: Call) | ForTake | ForStrong(node: nat) | ForServe

  /** What follows a locked handoff. */
  datatype Sequel = ThenReturn | ThenServe | ThenSubmit(node: nat)

  /** What follows the completion of a waiter. */
  datatype After = AfterRetry(index: nat, sequel: Sequel) | AfterGive(sequel: Sequel) | AfterDrain | AfterSelect

  /** try_acquire */
  datatype TryPc =
    | TryClosed | TryEmpty | TryRecheck(index: nat)

  /** acquire, async_acquire: fast path */
  datatype AcqPc =
    | AcqClosed(call: Call) | AcqExpired(call: Call) | AcqRecheck(index: nat, deadline: Deadline)
    | AcqLate(index: nat, deadline: Deadline) | MakeNode(call: Call)

  /** claim_idle */
  datatype ClaimPc =
    | Scan(word: nat, purpose: Purpose) | Cas(word: nat, snap: set<nat>, purpose: Purpose)

  /** registration of a waiter */
  datatype RegPc =
    | RegLock(node: nat) | RegExpired(node: nat) | RegGate(node: nat) | Ungate(index: nat, node: nat)
    | StrongLate(index: nat, node: nat) | Push(node: nat) | ArmTimer(node: nat)

  /** the blocked thread */
  datatype SleepPc =
    | Asleep(node: nat) | Awake(node: nat) | Pin(node: nat)

  /** handoff_or_publish */
  datatype RelPc =
    | RelClosed(index: nat) | RelGate(index: nat) | RelLock(index: nat)
    | RelPublish(index: nat) | RelRecheck(index: nat) | RelGateAgain

  /** reclaim_idle, quarantine_borrowed */
  datatype RecPc =
    | Reclaim(index: nat) | ReclaimCas(index: nat, snap: set<nat>) | QuarLock(index: nat)

  /** try_take_idle */
  datatype TakePc =
    | TakeClosed | TakeGate | TakeLock(index: nat)

  /** handoff_or_publish_locked, serve_waiters_locked */
  datatype HandPc =
    | Handoff(index: nat, sequel: Sequel) | HandoffLock(index: nat, sequel: Sequel) | ServeLock | ServeLoop

  /** complete_waiter_locked */
  datatype CompPc =
    | Give(node: nat, index: nat, sequel: Sequel) | Complete(node: nat, outcome: WaiterState, after: After)
    | Notify(node: nat, after: After) | Submit(node: nat, after: After)

  /** shutdown */
  datatype SweepPc =
    | SweepWord(word: nat) | SweepBits(word: nat, left: set<nat>) | Drain | DrainLock

  /** asynchronous completion, cancellation, timers and context shutdown */
  datatype SettlePc =
    | SubmitInit(node: nat) | Unregister(node: nat)
    | SelectLock(node: nat, outcome: WaiterState) | PrepareAbandon(context: nat, node: nat)

  /** Where a thread stands: outside the pool, or inside one of its routines. */
  datatype Pc =
    | Outside
    | Trying(atTry: TryPc)
    | Acquiring(atAcq: AcqPc)
    | Claiming(atClaim: ClaimPc)
    | Registering(atReg: RegPc)
    | Sleeping(atSleep: SleepPc)
    | Releasing(atRel: RelPc)
    | Reclaiming(atRec: RecPc)
    | Taking(atTake: TakePc)
    | Handing(atHand: HandPc)
    | Completing(atComp: CompPc)
    | Sweeping(atSweep: SweepPc)
    | Settling(atSettle: SettlePc)
    | Counting(word: nat, count: nat, seen: set<nat>)  // stats

  datatype State = State(sh: Shared, ths: seq<Pc>)

  /** Calls a thread outside the pool may start. */
  datatype CallAction =
    | BeginTry | BeginAcquire(call: Call) | BeginTake | BeginRelease(index: nat) | BeginQuarantine(index: nat)
    | BeginStats | BeginShutdown

  /** Operations on a ReservedSlot token. */
  datatype TokenAction =
    | BeginReserve | BeginTakeQuarantined | BeginEmplace(index: nat) | BeginDestroy(index: nat)
    | BeginPublish(index: nat) | BeginRollback(index: nat)

  /** Timers, cancellation, posted completions and context shutdown. */
  datatype EventAction =
    | BeginSelect(node: nat, outcome: WaiterState) | BeginDeliver(node: nat)
    | BeginStop(context: nat) | BeginAbandon(node: nat)

  /** The choices of a step: what a thread outside the pool starts, and whether a weak
      compare-exchange, a timer registration or a post fails. */
  datatype Action = Go | Fail | Start(call: CallAction) | Use(token: TokenAction) | Event(event: EventAction)

  function Word(i: nat): nat {
    i / BITS_PER_WORD
  }

  function Words(capacity: nat): nat {
    capacity / BITS_PER_WORD + (if capacity % BITS_PER_WORD != 0 then 1 else 0)
  }

  ghost function WordBits(bits: set<nat>, w: nat): set<nat> {
    set i | i in bits && Word(i) == w
  }

  /** The slot whose bit `countr_zero` finds. */
  ghost function Lowest(s: set<nat>): (m: nat)
    requires s != {}
    ensures m in s && forall x :: x in s ==> m <= x
  {
    var x :| x in s;
    if s == {x} then x
    else
      assert s == (s - {x}) + {x};
      var y := Lowest(s - {x});
      assert forall z :: z in s ==> z == x || z in s - {x};
      if x < y then x else y
  }

  // ------------------------------------------------------------------ shared updates

  ghost function SetNode(sh: Shared, n: nat, node: Node): Shared
    requires n < |sh.nodes|
  {
    sh.(nodes := sh.nodes[n := node])
  }

  ghost function SetState(sh: Shared, i: nat, st: SlotState): Shared
    requires i < |sh.states|
  {
    sh.(states := sh.states[i := st])
  }

  ghost function Reply(sh: Shared, t: nat, answer: Answer): Shared {
    sh.(answers := sh.answers[t := answer])
  }

  ghost function PublishBit(sh: Shared, i: nat): Shared
    requires i < |sh.states|
  {
    SetState(sh, i, Idle).(bits := sh.bits + {i})
  }

  ghost function Quarantine(sh: Shared, i: nat): Shared
    requires i < |sh.states|
  {
    SetState(sh, i, Quarantined).(usable := sh.usable - 1, quarantined := sh.quarantined + [i])
  }

  ghost function Unlink(sh: Shared, t: nat, n: nat, st: WaiterState): Shared
    requires n < |sh.nodes|
  {
    SetNode(sh, n, sh.nodes[n].(state := st, selector := t)).(queue := Without(sh.queue, n), gate := sh.gate - 1)
  }

  ghost function NewNode(call: Call, t: nat): Node {
    Node(call.kind, Queued, call.deadline, 0, t, false, 0, -1, call.kind.Async?, false, false, false, false)
  }

  /** Selection unlinks under the pool mutex, then releases it: a blocked thread's node is
      pinned first, an asynchronous one goes to its registry. */
  ghost predicate CompleteNode(t: nat, sh: Shared, n: nat, st: WaiterState, after: After, sh2: Shared, pc2: Pc) {
    && n < |sh.nodes|
    && var u := Unlink(sh, t, n, st).(owner := -1);
       match sh.nodes[n].kind
       case Sync => sh2 == SetNode(u, n, u.nodes[n].(pinned := true)) && pc2 == Completing(Notify(n, after))
       case Async(_) => sh2 == u && pc2 == Completing(Submit(n, after))
  }

  ghost function Resume(after: After): Pc {
    match after
    case AfterRetry(i, h) => Handing(HandoffLock(i, h))
    case AfterGive(h) => AfterHandoff(h)
    case AfterDrain => Sweeping(DrainLock)
    case AfterSelect => Outside
  }

  /** Continuation of a handoff that gave up the mutex. */
  ghost function AfterHandoff(h: Sequel): Pc {
    match h
    case ThenReturn => Outside
    case ThenServe => Handing(ServeLock)
    case ThenSubmit(n) => Settling(SubmitInit(n))
  }

  /** Continuation of a handoff that still owns the mutex. */
  ghost predicate KeepHandoff(h: Sequel, sh: Shared, sh2: Shared, pc2: Pc) {
    match h
    case ThenReturn => sh2 == sh.(owner := -1) && pc2 == Outside
    case ThenServe => sh2 == sh && pc2 == Handing(ServeLoop)
    case ThenSubmit(n) => sh2 == sh.(owner := -1) && pc2 == Settling(SubmitInit(n))
  }

  // ------------------------------------------------------------------ claim_idle

  ghost function OnFound(p: Purpose, i: nat): Pc {
    match p
    case ForTry => Trying(TryRecheck(i))
    case ForFast(call) => Acquiring(AcqRecheck(i, call.deadline))
    case ForTake => Taking(TakeLock(i))
    case ForStrong(n) => Registering(Ungate(i, n))
    case ForServe => Handing(Handoff(i, ThenServe))
  }

  ghost predicate OnMiss(p: Purpose, sh: Shared, sh2: Shared, pc2: Pc) {
    match p
    case ForTry => sh2 == sh && pc2 == Trying(TryEmpty)
    case ForFast(call) => sh2 == sh && pc2 == Acquiring(MakeNode(call))
    case ForTake => sh2 == sh && pc2 == Outside
    case ForStrong(n) => sh2 == sh && pc2 == Registering(Push(n))
    case ForServe => sh2 == sh.(owner := -1) && pc2 == Outside
  }

  /** Observing `seen` in word `w`: go on to the compare-exchange, the next word, or miss. */
  ghost predicate Observe(w: nat, seen: set<nat>, p: Purpose, sh: Shared, sh2: Shared, pc2: Pc) {
    if seen != {} then sh2 == sh && pc2 == Claiming(Cas(w, seen, p))
    else if w + 1 < Words(|sh.states|) then sh2 == sh && pc2 == Claiming(Scan(w + 1, p))
    else OnMiss(p, sh, sh2, pc2)
  }

  ghost predicate ClaimStep(t: nat, a: Action, sh: Shared, p: ClaimPc, sh2: Shared, pc2: Pc) {
    match p
    case Scan(w, why) => Observe(w, WordBits(sh.bits, w), why, sh, sh2, pc2)
    case Cas(w, snap, why) =>
      if a.Fail? || snap == {} || WordBits(sh.bits, w) != snap then Observe(w, WordBits(sh.bits, w), why, sh, sh2, pc2)
      else
        && Lowest(snap) < |sh.states|
        && sh2 == SetState(sh, Lowest(snap), Borrowed).(bits := sh.bits - {Lowest(snap)})
        && pc2 == OnFound(why, Lowest(snap))
  }

  // ------------------------------------------------------------------ acquisition

  ghost predicate TryStep(t: nat, a: Action, sh: Shared, p: TryPc, sh2: Shared, pc2: Pc) {
    match p
    case TryClosed =>
      if sh.closed then sh2 == Reply(sh, t, Shut) && pc2 == Outside else sh2 == sh && pc2 == Claiming(Scan(0, ForTry))
    case TryEmpty => sh2 == Reply(sh, t, if sh.closed then Shut else Exhausted) && pc2 == Outside
    case TryRecheck(i) =>
      if sh.closed then sh2 == Reply(sh, t, Shut) && pc2 == Reclaiming(QuarLock(i))
      else sh2 == Reply(sh, t, Lent(i)).(borrowed := sh.borrowed + multiset{i}) && pc2 == Outside
  }

  ghost predicate AcquireStep(t: nat, a: Action, sh: Shared, p: AcqPc, sh2: Shared, pc2: Pc) {
    match p
    case AcqClosed(call) =>
      if sh.closed then sh2 == Reply(sh, t, Shut) && pc2 == Outside
      else sh2 == sh && pc2 == Acquiring(AcqExpired(call))
    case AcqExpired(call) =>
      if Expired(call.deadline, sh.now) then sh2 == Reply(sh, t, TooLate) && pc2 == Outside
      else sh2 == sh && pc2 == Claiming(Scan(0, ForFast(call)))
    case AcqRecheck(i, d) =>
      if sh.closed then sh2 == Reply(sh, t, Shut) && pc2 == Reclaiming(QuarLock(i))
      else sh2 == sh && pc2 == Acquiring(AcqLate(i, d))
    case AcqLate(i, d) =>
      if Expired(d, sh.now) then sh2 == Reply(sh, t, TooLate) && pc2 == Releasing(RelClosed(i))
      else sh2 == Reply(sh, t, Lent(i)).(borrowed := sh.borrowed + multiset{i}) && pc2 == Outside
    case MakeNode(call) =>
      sh2 == sh.(nodes := sh.nodes + [NewNode(call, t)]) && pc2 == Registering(RegLock(|sh.nodes|))
  }

  /** How the outcome of a waiter is answered to a blocked thread. */
  ghost function AnswerOf(st: WaiterState, slot: nat): Answer {
    match st
    case Assigned => Lent(slot)
    case ShutDown => Shut
    case _ => TooLate
  }

  /** An unlinked call ends: a blocked thread returns, an asynchronous one posts its result. */
  ghost predicate Settle(t: nat, sh: Shared, n: nat, st: WaiterState, sh2: Shared, pc2: Pc) {
    && n < |sh.nodes|
    && if sh.nodes[n].kind.Sync?
       then
         && sh2 == SetNode(Reply(sh, t, AnswerOf(st, 0)), n, sh.nodes[n].(taken := true)).(owner := -1)
         && pc2 == Outside
       else sh2 == SetNode(sh, n, sh.nodes[n].(state := st)).(owner := -1) && pc2 == Settling(SubmitInit(n))
  }

  ghost predicate RegisterStep(t: nat, a: Action, sh: Shared, p: RegPc, sh2: Shared, pc2: Pc) {
    match p
    case RegLock(n) =>
      && n < |sh.nodes| && sh.owner == -1
      && if sh.nodes[n].state == Cancelled then sh2 == sh && pc2 == Settling(SubmitInit(n))
         else if sh.closed then Settle(t, sh, n, ShutDown, sh2, pc2)
         else sh2 == sh.(owner := t) && pc2 == Registering(RegExpired(n))
    case RegExpired(n) =>
      && n < |sh.nodes|
      && if Expired(sh.nodes[n].deadline, sh.now) then Settle(t, sh, n, TimedOut, sh2, pc2)
         else sh2 == sh && pc2 == Registering(RegGate(n))
    case RegGate(n) => sh2 == sh.(gate := sh.gate + 1) && pc2 == Claiming(Scan(0, ForStrong(n)))
    case Ungate(i, n) => sh2 == sh.(gate := sh.gate - 1) && pc2 == Registering(StrongLate(i, n))
    case StrongLate(i, n) => n < |sh.nodes| && StrongClaim(t, sh, i, n, sh2, pc2)
    case Push(n) =>
      && n < |sh.nodes|
      && var u := SetNode(sh, n, sh.nodes[n].(linked := true, ticket := sh.tickets))
               .(queue := sh.queue + [n], tickets := sh.tickets + 1);
         if sh.nodes[n].kind.Sync? then sh2 == u.(owner := -1) && pc2 == Sleeping(Asleep(n))
         else sh2 == u && pc2 == Registering(ArmTimer(n))
    case ArmTimer(n) =>
      && n < |sh.nodes|
      && if a.Fail? then sh2 == Unlink(sh, t, n, Cancelled).(owner := -1) && pc2 == Settling(Unregister(n))
         else sh2 == sh.(owner := -1) && pc2 == Outside
  }

  /** The strong scan found slot `i`: give it up if the deadline has passed, else take it. */
  ghost predicate StrongClaim(t: nat, sh: Shared, i: nat, n: nat, sh2: Shared, pc2: Pc)
    requires n < |sh.nodes|
  {
    var node := sh.nodes[n];
    if Expired(node.deadline, sh.now) then
      if node.kind.Sync? then
        && sh2 == SetNode(Reply(sh, t, TooLate), n, node.(taken := true))
        && pc2 == Handing(Handoff(i, ThenReturn))
      else sh2 == SetNode(sh, n, node.(state := TimedOut)) && pc2 == Handing(Handoff(i, ThenSubmit(n)))
    else if node.kind.Sync? then
      && sh2 == SetNode(Reply(sh, t, Lent(i)), n, node.(taken := true))
                .(borrowed := sh.borrowed + multiset{i}, owner := -1)
      && pc2 == Outside
    else sh2 == SetNode(sh, n, node.(state := Assigned, slot := i)).(owner := -1) && pc2 == Settling(SubmitInit(n))
  }

  ghost predicate SleepStep(t: nat, a: Action, sh: Shared, p: SleepPc, sh2: Shared, pc2: Pc) {
    match p
    case Asleep(n) =>
      // notified, timed out, or spurious
      sh2 == sh && pc2 == Sleeping(Awake(n))
    case Awake(n) =>
      && n < |sh.nodes| && sh.owner == -1
      && if sh.nodes[n].state != Queued then sh2 == sh && pc2 == Sleeping(Pin(n))
         else if Expired(sh.nodes[n].deadline, sh.now)
         then
           && var u := Unlink(sh, t, n, TimedOut);
              sh2 == SetNode(Reply(u, t, TooLate), n, u.nodes[n].(taken := true)) && pc2 == Outside
         else sh2 == sh && pc2 == Sleeping(Asleep(n))
    case Pin(n) =>
      && n < |sh.nodes| && !sh.nodes[n].pinned
      && sh2 == Reply(TakeResult(sh, n), t, AnswerOf(sh.nodes[n].state, sh.nodes[n].slot)) && pc2 == Outside
  }

  /** `result()` turns an assigned slot into a Borrowed token, once. */
  ghost function TakeResult(sh: Shared, n: nat): Shared
    requires n < |sh.nodes|
  {
    var node := sh.nodes[n];
    SetNode(sh, n, node.(taken := true, registered := false, posted := false))
    .(borrowed := if node.state == Assigned then sh.borrowed + multiset{node.slot} else sh.borrowed)
  }

  // ------------------------------------------------------------------ return of a slot

  ghost predicate ReleaseStep(t: nat, a: Action, sh: Shared, p: RelPc, sh2: Shared, pc2: Pc) {
    match p
    case RelClosed(i) => sh2 == sh && pc2 == Releasing(if sh.closed then RelLock(i) else RelGate(i))
    case RelGate(i) => sh2 == sh && pc2 == Releasing(if sh.gate != 0 then RelLock(i) else RelPublish(i))
    case RelLock(i) => sh.owner == -1 && sh2 == sh.(owner := t) && pc2 == Handing(Handoff(i, ThenReturn))
    case RelPublish(i) => i < |sh.states| && sh2 == PublishBit(sh, i) && pc2 == Releasing(RelRecheck(i))
    case RelRecheck(i) => sh2 == sh && pc2 == (if sh.closed then Reclaiming(Reclaim(i)) else Releasing(RelGateAgain))
    case RelGateAgain => sh2 == sh && pc2 == (if sh.gate != 0 then Handing(ServeLock) else Outside)
  }

  ghost predicate ReclaimStep(t: nat, a: Action, sh: Shared, p: RecPc, sh2: Shared, pc2: Pc) {
    match p
    case Reclaim(i) =>
      sh2 == sh && pc2 == (if i in sh.bits then Reclaiming(ReclaimCas(i, WordBits(sh.bits, Word(i)))) else Outside)
    case ReclaimCas(i, snap) =>
      if a.Fail? || i !in snap || WordBits(sh.bits, Word(i)) != snap then
        sh2 == sh && pc2 == (if i in sh.bits then Reclaiming(ReclaimCas(i, WordBits(sh.bits, Word(i)))) else Outside)
      else
        i < |sh.states| && sh2 == SetState(sh, i, Borrowed).(bits := sh.bits - {i}) && pc2 == Reclaiming(QuarLock(i))
    case QuarLock(i) => i < |sh.states| && sh.owner == -1 && sh2 == Quarantine(sh, i) && pc2 == Outside
  }

  ghost predicate TakeStep(t: nat, a: Action, sh: Shared, p: TakePc, sh2: Shared, pc2: Pc) {
    match p
    case TakeClosed => sh2 == sh && pc2 == (if sh.closed then Outside else Taking(TakeGate))
    case TakeGate => sh2 == sh && pc2 == (if sh.gate != 0 then Outside else Claiming(Scan(0, ForTake)))
    case TakeLock(i) =>
      && i < |sh.states| && sh.owner == -1
      && if sh.closed then sh2 == Quarantine(sh, i) && pc2 == Outside
         else if sh.gate != 0 then sh2 == PublishBit(sh, i).(owner := t) && pc2 == Handing(ServeLoop)
         else
           && sh2 == SetState(sh, i, Reserved).(usable := sh.usable - 1, reserved := sh.reserved + 1,
                                                filled := sh.filled + multiset{i})
           && pc2 == Outside
  }

  // ------------------------------------------------------------------ handoff under the mutex

  ghost predicate HandoffStep(t: nat, a: Action, sh: Shared, p: HandPc, sh2: Shared, pc2: Pc) {
    match p
    case Handoff(i, h) =>
      && i < |sh.states|
      && if sh.closed then KeepHandoff(h, Quarantine(sh, i), sh2, pc2)
         else if sh.queue == [] then KeepHandoff(h, PublishBit(sh, i), sh2, pc2)
         else
           && sh.queue[0] < |sh.nodes|
           && sh2 == sh
           && pc2 == Completing(if Expired(sh.nodes[sh.queue[0]].deadline, sh.now)
                                then Complete(sh.queue[0], TimedOut, AfterRetry(i, h))
                                else Give(sh.queue[0], i, h))
    case HandoffLock(i, h) => sh.owner == -1 && sh2 == sh.(owner := t) && pc2 == Handing(Handoff(i, h))
    case ServeLock => sh.owner == -1 && sh2 == sh.(owner := t) && pc2 == Handing(ServeLoop)
    case ServeLoop =>
      if sh.closed || sh.queue == [] then sh2 == sh.(owner := -1) && pc2 == Outside
      else sh2 == sh && pc2 == Claiming(Scan(0, ForServe))
  }

  /** The registry mutex of a context is held from the start of its shutdown to the end of the prepare phase. */
  predicate RegistryFree(sh: Shared, c: nat) {
    c in sh.stopping ==> c in sh.stopped
  }

  ghost predicate CompleteStep(t: nat, a: Action, sh: Shared, p: CompPc, sh2: Shared, pc2: Pc) {
    match p
    case Give(n, i, h) =>
      && n < |sh.nodes|
      && CompleteNode(t, SetNode(sh, n, sh.nodes[n].(slot := i)), n, Assigned, AfterGive(h), sh2, pc2)
    case Complete(n, st, after) => CompleteNode(t, sh, n, st, after, sh2, pc2)
    case Notify(n, after) =>
      && n < |sh.nodes|
      && sh2 == SetNode(sh, n, sh.nodes[n].(notified := true, pinned := false)) && pc2 == Resume(after)
    case Submit(n, after) =>
      && n < |sh.nodes| && sh.nodes[n].kind.Async? && RegistryFree(sh, sh.nodes[n].kind.context)
      && sh2 == SetNode(sh, n, sh.nodes[n].(posted := sh.nodes[n].kind.context !in sh.stopping))
      && pc2 == Resume(after)
  }

  ghost predicate SettleStep(t: nat, a: Action, sh: Shared, p: SettlePc, sh2: Shared, pc2: Pc) {
    match p
    case SubmitInit(n) =>
      && n < |sh.nodes| && sh.nodes[n].kind.Async? && RegistryFree(sh, sh.nodes[n].kind.context)
      && var node := sh.nodes[n];
         if node.kind.context in sh.stopping then sh2 == sh && pc2 == Outside
         else if !a.Fail? then sh2 == SetNode(sh, n, node.(posted := true)) && pc2 == Outside
         else
           // the post threw: leave the registry, take the result and give an assigned slot back
           && sh2 == SetNode(sh, n, node.(taken := true, registered := false))
           && pc2 == (if node.state == Assigned then Releasing(RelClosed(node.slot)) else Outside)
    case Unregister(n) =>
      && n < |sh.nodes| && sh.nodes[n].kind.Async? && RegistryFree(sh, sh.nodes[n].kind.context)
      && sh2 == SetNode(sh, n, sh.nodes[n].(taken := true, registered := false)) && pc2 == Outside
    case SelectLock(n, st) =>
      && n < |sh.nodes| && sh.owner == -1
      && if sh.nodes[n].state != Queued then sh2 == sh && pc2 == Outside
         else if !sh.nodes[n].linked then sh2 == SetNode(sh, n, sh.nodes[n].(state := st)) && pc2 == Outside
         else sh2 == sh.(owner := t) && pc2 == Completing(Complete(n, st, AfterSelect))
    case PrepareAbandon(c, n) =>
      if n >= |sh.nodes| then sh2 == sh.(stopped := sh.stopped + {c}) && pc2 == Outside
      else if sh.nodes[n].kind != Async(c) || !sh.nodes[n].registered then
        sh2 == sh && pc2 == Settling(PrepareAbandon(c, n + 1))
      else
        && sh.owner == -1 && pc2 == Settling(PrepareAbandon(c, n + 1))
        && sh2 == (if n in sh.queue then Unlink(sh, t, n, Cancelled) else sh)
  }

  // ------------------------------------------------------------------ shutdown and stats

  ghost predicate SweepStep(t: nat, a: Action, sh: Shared, p: SweepPc, sh2: Shared, pc2: Pc) {
    match p
    case SweepWord(w) =>
      sh2 == sh.(bits := sh.bits - WordBits(sh.bits, w)) && pc2 == Sweeping(SweepBits(w, WordBits(sh.bits, w)))
    case SweepBits(w, left) =>
      if left != {} then
        && Lowest(left) < |sh.states| && sh2 == Quarantine(sh, Lowest(left))
        && pc2 == Sweeping(SweepBits(w, left - {Lowest(left)}))
      else sh2 == sh && pc2 == Sweeping(if w + 1 < Words(|sh.states|) then SweepWord(w + 1) else Drain)
    case Drain =>
      if sh.queue == [] then sh2 == sh.(owner := -1) && pc2 == Outside
      else
        && sh.queue[0] < |sh.nodes|
        && sh2 == sh
        && var late := Expired(sh.nodes[sh.queue[0]].deadline, sh.now);
           pc2 == Completing(Complete(sh.queue[0], if late then TimedOut else ShutDown, AfterDrain))
    case DrainLock => sh.owner == -1 && sh2 == sh.(owner := t) && pc2 == Sweeping(Drain)
  }

  ghost predicate CountStep(t: nat, a: Action, sh: Shared, pc: Pc, sh2: Shared, pc2: Pc)
    requires pc.Counting?
  {
    var w := pc.word;
    if w < Words(|sh.states|) then
      sh2 == sh && pc2 == Counting(w + 1, pc.count + |WordBits(sh.bits, w)|, pc.seen + WordBits(sh.bits, w))
    else sh2 == sh.(owner := -1) && pc2 == Outside
  }

  // ------------------------------------------------------------------ a thread outside the pool

  ghost predicate BeginStep(t: nat, c: CallAction, sh: Shared, sh2: Shared, pc2: Pc) {
    match c
    case BeginTry => sh2 == sh && pc2 == Trying(TryClosed)
    case BeginAcquire(call) =>
      (call.kind.Async? ==> call.kind.context !in sh.stopping) && sh2 == sh && pc2 == Acquiring(AcqClosed(call))
    case BeginTake => sh2 == sh && pc2 == Taking(TakeClosed)
    case BeginRelease(i) =>
      i in sh.borrowed && sh2 == sh.(borrowed := sh.borrowed - multiset{i}) && pc2 == Releasing(RelClosed(i))
    case BeginQuarantine(i) =>
      i in sh.borrowed && sh2 == sh.(borrowed := sh.borrowed - multiset{i}) && pc2 == Reclaiming(QuarLock(i))
    case BeginStats => sh.owner == -1 && sh2 == sh.(owner := t) && pc2 == Counting(0, 0, {})
    case BeginShutdown =>
      && sh.owner == -1
      && if sh.closed then sh2 == sh && pc2 == Outside
         else sh2 == sh.(closed := true, owner := t) && pc2 == Sweeping(SweepWord(0))
  }

  ghost predicate TokenStep(t: nat, c: TokenAction, sh: Shared, sh2: Shared, pc2: Pc) {
    match c
    case BeginReserve =>
      && sh.owner == -1 && pc2 == Outside
      && if sh.closed || sh.vacant == [] then sh2 == sh
         else
           var i := sh.vacant[|sh.vacant| - 1];
           && i < |sh.states|
           && sh2 == SetState(sh, i, Reserved)
                     .(vacant := sh.vacant[..|sh.vacant| - 1], reserved := sh.reserved + 1,
                       blank := sh.blank + multiset{i})
    case BeginTakeQuarantined =>
      && sh.owner == -1 && pc2 == Outside
      && if sh.closed || sh.quarantined == [] then sh2 == sh
         else
           var i := sh.quarantined[|sh.quarantined| - 1];
           && i < |sh.states|
           && sh2 == SetState(sh, i, Reserved)
                     .(quarantined := sh.quarantined[..|sh.quarantined| - 1], reserved := sh.reserved + 1,
                       filled := sh.filled + multiset{i})
    case BeginEmplace(i) =>
      && i in sh.blank && i < |sh.built| && pc2 == Outside
      && sh2 == sh.(blank := sh.blank - multiset{i}, filled := sh.filled + multiset{i},
                    built := sh.built[i := sh.built[i] + 1])
    case BeginDestroy(i) =>
      && i in sh.filled && i < |sh.torn| && pc2 == Outside
      && sh2 == sh.(filled := sh.filled - multiset{i}, blank := sh.blank + multiset{i},
                    torn := sh.torn[i := sh.torn[i] + 1])
    case BeginPublish(i) =>
      && i in sh.filled && i < |sh.states| && sh.owner == -1
      && if sh.closed then sh2 == sh && pc2 == Outside
         else
           && sh2 == SetState(sh, i, Borrowed)
                     .(reserved := sh.reserved - 1, usable := sh.usable + 1, filled := sh.filled - multiset{i},
                       owner := t)
           && pc2 == Handing(Handoff(i, ThenReturn))
    case BeginRollback(i) =>
      && i < |sh.states| && i < |sh.torn| && sh.owner == -1 && pc2 == Outside
      && var u := SetState(sh, i, Vacant).(vacant := sh.vacant + [i], reserved := sh.reserved - 1);
         if i in sh.filled then sh2 == u.(filled := sh.filled - multiset{i}, torn := sh.torn[i := sh.torn[i] + 1])
         else i in sh.blank && sh2 == u.(blank := sh.blank - multiset{i})
  }

  ghost predicate EventStep(t: nat, c: EventAction, sh: Shared, sh2: Shared, pc2: Pc) {
    match c
    case BeginSelect(n, st) =>
      && n < |sh.nodes| && sh.nodes[n].kind.Async? && sh2 == sh && pc2 == Settling(SelectLock(n, st))
      && (st == Cancelled || (st == TimedOut && sh.nodes[n].linked && Expired(sh.nodes[n].deadline, sh.now)))
    case BeginDeliver(n) =>
      && n < |sh.nodes| && sh.nodes[n].posted && sh.nodes[n].kind.Async? && sh.nodes[n].kind.context !in sh.stopping
      && sh2 == TakeResult(sh, n) && pc2 == Outside
    case BeginStop(c) =>
      c !in sh.stopping && sh2 == sh.(stopping := sh.stopping + {c}) && pc2 == Settling(PrepareAbandon(c, 0))
    case BeginAbandon(n) =>
      && n < |sh.nodes| && sh.nodes[n].registered && sh.nodes[n].kind.Async? && sh.nodes[n].kind.context in sh.stopped
      && sh2 == SetNode(sh, n, sh.nodes[n].(taken := true, registered := false, posted := false))
      && pc2 == (if sh.nodes[n].state == Assigned then Releasing(RelClosed(sh.nodes[n].slot)) else Outside)
  }

  ghost predicate OutsideStep(t: nat, a: Action, sh: Shared, sh2: Shared, pc2: Pc) {
    match a
    case Start(c) => BeginStep(t, c, sh, sh2, pc2)
    case Use(c) => TokenStep(t, c, sh, sh2, pc2)
    case Event(c) => EventStep(t, c, sh, sh2, pc2)
    case Go => false
    case Fail => false
  }

  /** One step of thread `t`, standing at `pc`. */
  ghost predicate Step(t: nat, a: Action, sh: Shared, pc: Pc, sh2: Shared, pc2: Pc) {
    match pc
    case Outside => OutsideStep(t, a, sh, sh2, pc2)
    case Trying(p) => TryStep(t, a, sh, p, sh2, pc2)
    case Acquiring(p) => AcquireStep(t, a, sh, p, sh2, pc2)
    case Claiming(p) => ClaimStep(t, a, sh, p, sh2, pc2)
    case Registering(p) => RegisterStep(t, a, sh, p, sh2, pc2)
    case Sleeping(p) => SleepStep(t, a, sh, p, sh2, pc2)
    case Releasing(p) => ReleaseStep(t, a, sh, p, sh2, pc2)
    case Reclaiming(p) => ReclaimStep(t, a, sh, p, sh2, pc2)
    case Taking(p) => TakeStep(t, a, sh, p, sh2, pc2)
    case Handing(p) => HandoffStep(t, a, sh, p, sh2, pc2)
    case Completing(p) => CompleteStep(t, a, sh, p, sh2, pc2)
    case Sweeping(p) => SweepStep(t, a, sh, p, sh2, pc2)
    case Settling(p) => SettleStep(t, a, sh, p, sh2, pc2)
    case Counting(_, _, _) => CountStep(t, a, sh, pc, sh2, pc2)
  }

  /** The node of the call that this thread is still initiating. */
  ghost function CallNode(pc: Pc): int {
    match pc
    case Registering(p) => p.node
    case Claiming(p) => if p.purpose.ForStrong? then p.purpose.node else -1
    case Settling(p) => if p.SubmitInit? || p.Unregister? then p.node else -1
    case Handing(p) => if p.Handoff? || p.HandoffLock? then SequelNode(p.sequel) else -1
    case Completing(p) => if p.Give? then SequelNode(p.sequel) else AfterNode(p.after)
    case _ => -1
  }

  ghost function SequelNode(h: Sequel): int {
    if h.ThenSubmit? then h.node else -1
  }

  ghost function AfterNode(after: After): int {
    match after
    case AfterRetry(_, h) => SequelNode(h)
    case AfterGive(h) => SequelNode(h)
    case _ => -1
  }

  /** The kind of the call being initiated; `Sync` when there is none. */
  ghost function CallKind(sh: Shared, pc: Pc): WaiterKind {
    if 0 <= CallNode(pc) < |sh.nodes| then sh.nodes[CallNode(pc)].kind
    else match pc
         case Acquiring(p) => if p.AcqClosed? || p.AcqExpired? || p.MakeNode? then p.call.kind else Sync
         case Claiming(p) => if p.purpose.ForFast? then p.purpose.call.kind else Sync
         case _ => Sync
  }

  /** One step of thread `t`, or the clock advancing. Asio runs a context's shutdown only
      after the threads that initiate calls on it have stopped. */
  ghost predicate Next(s: State, s2: State) {
    || (exists t: nat, a: Action {:trigger Moves(s, t, a, s2)} :: Moves(s, t, a, s2))
    || (s2.sh.now >= s.sh.now && s2 == s.(sh := s.sh.(now := s2.sh.now)))
  }

  ghost predicate Moves(s: State, t: nat, a: Action, s2: State) {
    && t < |s.ths| == |s2.ths|
    && Step(t, a, s.sh, s.ths[t], s2.sh, s2.ths[t])
    && s2.ths == s.ths[t := s2.ths[t]]
    && forall c, q :: c in s2.sh.stopping && c !in s.sh.stopping && 0 <= q < |s.ths| ==>
         CallKind(s.sh, s.ths[q]) != Async(c)
  }

  ghost predicate Init(s: State) {
    && |s.sh.states| > 0
    && (forall i :: 0 <= i < |s.sh.states| ==> s.sh.states[i] == Vacant)
    && s.sh.vacant == seq(|s.sh.states|, i requires 0 <= i < |s.sh.states| => |s.sh.states| - 1 - i)
    && s.sh.quarantined == [] && s.sh.bits == {} && s.sh.owner == -1
    && s.sh.nodes == [] && s.sh.queue == [] && s.sh.gate == 0 && s.sh.tickets == 0
    && s.sh.usable == 0 && s.sh.reserved == 0 && !s.sh.closed
    && s.sh.borrowed == multiset{} && s.sh.filled == multiset{} && s.sh.blank == multiset{}
    && s.sh.built == s.sh.torn == seq(|s.sh.states|, i => 0)
    && s.sh.stopping == {} && s.sh.stopped == {} && s.sh.answers == map[]
    && forall t :: 0 <= t < |s.ths| ==> s.ths[t] == Outside
  }

  /** A run from the freshly constructed pool. */
  ghost predicate Run(r: seq<State>) {
    && r != [] && Init(r[0])
    && forall k :: 0 <= k < |r| - 1 ==> Next(r[k], r[k + 1])
  }
}
