/**
 Ownership of slots. Every index stands in exactly one place, and the place agrees with
 the slot's state: the vacant list, the quarantined list, a reservation token, an idle bit
 (or the sweep's local copy of it), or one exclusive owner: a Borrowed token, a thread, or
 a waiter that was assigned the slot and has not taken it.
 */
module PoolPlaces {
  import opened Basics
  import opened PoolModel
  import opened PoolProtocol

  /** Thread at `pc` owns slot `i`. */
  ghost predicate Holds(pc: Pc, i: nat) {
    match pc
    case Trying(p) => p.TryRecheck? && p.index == i
    case Acquiring(p) => (p.AcqRecheck? || p.AcqLate?) && p.index == i
    case Registering(p) => (p.Ungate? || p.StrongLate?) && p.index == i
    case Releasing(p) => (p.RelClosed? || p.RelGate? || p.RelLock? || p.RelPublish?) && p.index == i
    case Reclaiming(p) => p.QuarLock? && p.index == i
    case Taking(p) => p.TakeLock? && p.index == i
    case Handing(p) => (p.Handoff? || p.HandoffLock?) && p.index == i
    case Completing(p) => if p.Give? then p.index == i else p.after.AfterRetry? && p.after.index == i
    case _ => false
  }

  ghost predicate Swept(pc: Pc, i: nat) {
    pc.Sweeping? && pc.atSweep.SweepBits? && i in pc.atSweep.left
  }

  ghost predicate NodeHolds(node: Node, i: nat) {
    node.state == Assigned && !node.taken && node.slot == i
  }

  ghost function NodeCount(nodes: seq<Node>, i: nat): nat {
    if nodes == [] then 0
    else NodeCount(nodes[..|nodes| - 1], i) + One(NodeHolds(nodes[|nodes| - 1], i))
  }

  ghost function HeldCount(ths: seq<Pc>, i: nat): nat {
    if ths == [] then 0
    else HeldCount(ths[..|ths| - 1], i) + One(Holds(ths[|ths| - 1], i))
  }

  ghost function SweptCount(ths: seq<Pc>, i: nat): nat {
    if ths == [] then 0
    else SweptCount(ths[..|ths| - 1], i) + One(Swept(ths[|ths| - 1], i))
  }

  ghost predicate Is(sh: Shared, i: nat, st: SlotState) {
    i < |sh.states| && sh.states[i] == st
  }

  /** Slot `i` is in exactly the place its state names, once. */
  ghost predicate Placed(s: State, i: nat) {
    && multiset(s.sh.vacant)[i] == One(Is(s.sh, i, Vacant))
    && multiset(s.sh.quarantined)[i] == One(Is(s.sh, i, Quarantined))
    && s.sh.filled[i] + s.sh.blank[i] == One(Is(s.sh, i, Reserved))
    && One(i in s.sh.bits) + SweptCount(s.ths, i) == One(Is(s.sh, i, Idle))
    && s.sh.borrowed[i] + NodeCount(s.sh.nodes, i) + HeldCount(s.ths, i) == One(Is(s.sh, i, Borrowed))
  }

  ghost predicate Places(s: State) {
    forall i: nat :: Placed(s, i)
  }

  // ------------------------------------------------------------------ counting

  lemma {:induction false} NodeCountSet(nodes: seq<Node>, n: nat, node: Node, i: nat)
    requires n < |nodes|
    ensures NodeCount(nodes[n := node], i) + One(NodeHolds(nodes[n], i))
            == NodeCount(nodes, i) + One(NodeHolds(node, i))
  {
    var k := |nodes| - 1;
    if n == k {
      assert nodes[n := node][..k] == nodes[..k];
    } else {
      assert nodes[n := node][..k] == nodes[..k][n := node];
      NodeCountSet(nodes[..k], n, node, i);
    }
  }

  lemma {:induction false} NodeCountMember(nodes: seq<Node>, n: nat, i: nat)
    requires n < |nodes| && NodeHolds(nodes[n], i)
    ensures NodeCount(nodes, i) >= 1
  {
    var k := |nodes| - 1;
    if n != k {
      NodeCountMember(nodes[..k], n, i);
    }
  }

  lemma {:induction false} HeldCountSet(ths: seq<Pc>, t: nat, pc: Pc, i: nat)
    requires t < |ths|
    ensures HeldCount(ths[t := pc], i) + One(Holds(ths[t], i)) == HeldCount(ths, i) + One(Holds(pc, i))
    ensures SweptCount(ths[t := pc], i) + One(Swept(ths[t], i)) == SweptCount(ths, i) + One(Swept(pc, i))
  {
    var k := |ths| - 1;
    if t == k {
      assert ths[t := pc][..k] == ths[..k];
    } else {
      assert ths[t := pc][..k] == ths[..k][t := pc];
      HeldCountSet(ths[..k], t, pc, i);
    }
  }

  lemma {:induction false} HeldCountMember(ths: seq<Pc>, t: nat, i: nat)
    requires t < |ths|
    ensures Holds(ths[t], i) ==> HeldCount(ths, i) >= 1
    ensures Swept(ths[t], i) ==> SweptCount(ths, i) >= 1
  {
    var k := |ths| - 1;
    if t != k {
      HeldCountMember(ths[..k], t, i);
    }
  }

  // ------------------------------------------------------------------ what an owner may conclude

  /** The state of a slot, read off from any place that holds it. */
  ghost predicate Tagged(sh: Shared, pc: Pc) {
    && (forall j: nat {:trigger Holds(pc, j)} :: Holds(pc, j) ==> Is(sh, j, Borrowed))
    && (forall j: nat {:trigger Swept(pc, j)} :: Swept(pc, j) ==> Is(sh, j, Idle))
    && (forall j: nat {:trigger j in sh.bits} :: j in sh.bits ==> Is(sh, j, Idle) && !Swept(pc, j))
    && (forall j: nat {:trigger sh.borrowed[j]} :: j in sh.borrowed ==> Is(sh, j, Borrowed))
    && (forall j: nat {:trigger sh.filled[j]} :: j in sh.filled ==> Is(sh, j, Reserved))
    && (forall j: nat {:trigger sh.blank[j]} :: j in sh.blank ==> Is(sh, j, Reserved))
    && (forall j: nat {:trigger sh.filled[j]} {:trigger sh.blank[j]} :: sh.filled[j] + sh.blank[j] <= 1)
    && (forall k {:trigger sh.vacant[k]} :: 0 <= k < |sh.vacant| ==> Is(sh, sh.vacant[k], Vacant))
    && (forall k {:trigger sh.quarantined[k]} :: 0 <= k < |sh.quarantined| ==> Is(sh, sh.quarantined[k], Quarantined))
    && (forall n {:trigger sh.nodes[n]} ::
          0 <= n < |sh.nodes| && sh.nodes[n].state == Assigned && !sh.nodes[n].taken ==>
          Is(sh, sh.nodes[n].slot, Borrowed))
  }

  lemma PlacesTag(s: State, t: nat)
    requires Places(s) && t < |s.ths|
    ensures Tagged(s.sh, s.ths[t])
  {
    var sh, pc := s.sh, s.ths[t];
    forall j: nat
      ensures Holds(pc, j) ==> Is(sh, j, Borrowed)
      ensures Swept(pc, j) ==> Is(sh, j, Idle)
      ensures j in sh.bits ==> Is(sh, j, Idle) && !Swept(pc, j)
      ensures j in sh.borrowed ==> Is(sh, j, Borrowed)
      ensures j in sh.filled ==> Is(sh, j, Reserved)
      ensures j in sh.blank ==> Is(sh, j, Reserved)
      ensures sh.filled[j] + sh.blank[j] <= 1
    {
      assert Placed(s, j);
      HeldCountMember(s.ths, t, j);
    }
    forall k | 0 <= k < |sh.vacant| ensures Is(sh, sh.vacant[k], Vacant) {
      assert Placed(s, sh.vacant[k]) && sh.vacant[k] in multiset(sh.vacant);
    }
    forall k | 0 <= k < |sh.quarantined| ensures Is(sh, sh.quarantined[k], Quarantined) {
      assert Placed(s, sh.quarantined[k]) && sh.quarantined[k] in multiset(sh.quarantined);
    }
    forall n | 0 <= n < |sh.nodes| && sh.nodes[n].state == Assigned && !sh.nodes[n].taken
      ensures Is(sh, sh.nodes[n].slot, Borrowed)
    {
      assert Placed(s, sh.nodes[n].slot) && NodeHolds(sh.nodes[n], sh.nodes[n].slot);
      NodeCountMember(sh.nodes, n, sh.nodes[n].slot);
    }
  }

  // ------------------------------------------------------------------ the accounts of one index across a step

  /** How often the shared places of state `st` hold slot `i`, less what its state calls for. */
  ghost function Account(sh: Shared, i: nat, st: SlotState): int {
    (match st
     case Vacant => multiset(sh.vacant)[i]
     case Quarantined => multiset(sh.quarantined)[i]
     case Reserved => sh.filled[i] + sh.blank[i]
     case Idle => One(i in sh.bits)
     case Borrowed => sh.borrowed[i] + NodeCount(sh.nodes, i))
    - One(Is(sh, i, st))
  }

  ghost predicate Shift(sh: Shared, sh2: Shared, i: nat, idle: int, borrowed: int) {
    && Account(sh2, i, Vacant) == Account(sh, i, Vacant)
    && Account(sh2, i, Quarantined) == Account(sh, i, Quarantined)
    && Account(sh2, i, Reserved) == Account(sh, i, Reserved)
    && Account(sh2, i, Idle) == Account(sh, i, Idle) + idle
    && Account(sh2, i, Borrowed) == Account(sh, i, Borrowed) + borrowed
  }

  /** What leaves the shared places enters the thread, and back. */
  ghost predicate Balanced(sh: Shared, pc: Pc, sh2: Shared, pc2: Pc, i: nat) {
    Shift(sh, sh2, i, One(Swept(pc, i)) - One(Swept(pc2, i)), One(Holds(pc, i)) - One(Holds(pc2, i)))
  }

  ghost predicate SamePlaces(sh: Shared, sh2: Shared) {
    && sh2.states == sh.states && sh2.vacant == sh.vacant && sh2.quarantined == sh.quarantined
    && sh2.filled == sh.filled && sh2.blank == sh.blank && sh2.bits == sh.bits && sh2.borrowed == sh.borrowed
    && sh2.nodes == sh.nodes
  }

  lemma StayPut(sh: Shared, sh2: Shared, i: nat)
    requires SamePlaces(sh, sh2)
    ensures Shift(sh, sh2, i, 0, 0)
  {
  }

  lemma MoveToQuarantine(sh: Shared, j: nat, sh2: Shared, i: nat)
    requires (Is(sh, j, Borrowed) || Is(sh, j, Idle)) && SamePlaces(Quarantine(sh, j), sh2)
    ensures Shift(sh, sh2, i, One(i == j && Is(sh, j, Idle)), One(i == j && Is(sh, j, Borrowed)))
  {
  }

  lemma MoveToIdle(sh: Shared, j: nat, sh2: Shared, i: nat)
    requires Is(sh, j, Borrowed) && j !in sh.bits && SamePlaces(PublishBit(sh, j), sh2)
    ensures Shift(sh, sh2, i, 0, One(i == j))
  {
  }

  lemma MoveToThread(sh: Shared, j: nat, sh2: Shared, i: nat)
    requires Is(sh, j, Idle) && j in sh.bits && SamePlaces(SetState(sh, j, Borrowed).(bits := sh.bits - {j}), sh2)
    ensures Shift(sh, sh2, i, 0, 0 - One(i == j))
  {
  }

  lemma MoveToToken(sh: Shared, j: nat, sh2: Shared, i: nat)
    requires SamePlaces(sh.(borrowed := sh.borrowed + multiset{j}), sh2)
    ensures Shift(sh, sh2, i, 0, One(i == j))
  {
  }

  lemma MoveFromToken(sh: Shared, j: nat, sh2: Shared, i: nat)
    requires j in sh.borrowed && SamePlaces(sh.(borrowed := sh.borrowed - multiset{j}), sh2)
    ensures Shift(sh, sh2, i, 0, 0 - One(i == j))
  {
  }

  lemma MoveToReserve(sh: Shared, j: nat, sh2: Shared, i: nat)
    requires Is(sh, j, Borrowed) && SamePlaces(SetState(sh, j, Reserved).(filled := sh.filled + multiset{j}), sh2)
    ensures Shift(sh, sh2, i, 0, One(i == j))
  {
  }

  lemma MoveFromReserve(sh: Shared, j: nat, sh2: Shared, i: nat)
    requires Is(sh, j, Reserved) && j in sh.filled
             && SamePlaces(SetState(sh, j, Borrowed).(filled := sh.filled - multiset{j}), sh2)
    ensures Shift(sh, sh2, i, 0, 0 - One(i == j))
  {
  }

  lemma MoveOutOfVacant(sh: Shared, sh2: Shared, i: nat)
    requires sh.vacant != []
    requires Is(sh, sh.vacant[|sh.vacant| - 1], Vacant)
    requires var j := sh.vacant[|sh.vacant| - 1];
             SamePlaces(SetState(sh, j, Reserved).(vacant := sh.vacant[..|sh.vacant| - 1],
                                                   blank := sh.blank + multiset{j}), sh2)
    ensures Shift(sh, sh2, i, 0, 0)
  {
    assert sh.vacant == sh.vacant[..|sh.vacant| - 1] + [sh.vacant[|sh.vacant| - 1]];
  }

  lemma MoveOutOfQuarantine(sh: Shared, sh2: Shared, i: nat)
    requires sh.quarantined != []
    requires Is(sh, sh.quarantined[|sh.quarantined| - 1], Quarantined)
    requires var j := sh.quarantined[|sh.quarantined| - 1];
             SamePlaces(SetState(sh, j, Reserved).(quarantined := sh.quarantined[..|sh.quarantined| - 1],
                                                   filled := sh.filled + multiset{j}), sh2)
    ensures Shift(sh, sh2, i, 0, 0)
  {
    assert sh.quarantined == sh.quarantined[..|sh.quarantined| - 1] + [sh.quarantined[|sh.quarantined| - 1]];
  }

  lemma MoveToVacant(sh: Shared, j: nat, sh2: Shared, i: nat)
    requires Is(sh, j, Reserved) && (j in sh.filled || j in sh.blank)
    requires SamePlaces(SetState(sh, j, Vacant)
                        .(vacant := sh.vacant + [j],
                          filled := sh.filled - if j in sh.filled then multiset{j} else multiset{},
                          blank := sh.blank - if j in sh.filled then multiset{} else multiset{j}), sh2)
    ensures Shift(sh, sh2, i, 0, 0)
  {
  }

  lemma MoveInToken(sh: Shared, j: nat, sh2: Shared, i: nat)
    requires
      || (j in sh.blank && SamePlaces(sh.(blank := sh.blank - multiset{j}, filled := sh.filled + multiset{j}), sh2))
      || (j in sh.filled && SamePlaces(sh.(filled := sh.filled - multiset{j}, blank := sh.blank + multiset{j}), sh2))
    ensures Shift(sh, sh2, i, 0, 0)
  {
  }

  lemma MoveNode(sh: Shared, n: nat, sh2: Shared, i: nat)
    requires n < |sh.nodes| == |sh2.nodes| && SamePlaces(SetNode(sh, n, sh2.nodes[n]), sh2)
    ensures Shift(sh, sh2, i, 0, One(NodeHolds(sh2.nodes[n], i)) - One(NodeHolds(sh.nodes[n], i)))
  {
    NodeCountSet(sh.nodes, n, sh2.nodes[n], i);
  }

  lemma NodeCountAppend(nodes: seq<Node>, node: Node, i: nat)
    ensures NodeCount(nodes + [node], i) == NodeCount(nodes, i) + One(NodeHolds(node, i))
  {
    assert (nodes + [node])[..|nodes|] == nodes;
  }

  /** A node is made with nothing assigned to it. */
  lemma MoveNewNode(sh: Shared, node: Node, sh2: Shared, i: nat)
    requires sh2 == sh.(nodes := sh.nodes + [node]) && node.state != Assigned
    ensures Shift(sh, sh2, i, 0, 0)
  {
    NodeCountAppend(sh.nodes, node, i);
    hide NodeCount;
  }

  /** Taking the result of node `n` turns its slot, if it has one, into a token. */
  lemma MoveResult(sh: Shared, n: nat, sh2: Shared, i: nat)
    requires n < |sh.nodes| && !sh.nodes[n].taken && SamePlaces(TakeResult(sh, n), sh2)
    ensures Shift(sh, sh2, i, 0, 0)
  {
    NodeCountSet(sh.nodes, n, sh2.nodes[n], i);
  }

  lemma TryBalance(t: nat, a: Action, sh: Shared, p: TryPc, sh2: Shared, pc2: Pc, i: nat)
    requires TryStep(t, a, sh, p, sh2, pc2)
    ensures Balanced(sh, Trying(p), sh2, pc2, i)
  {
    hide Account, Shift;
    if p.TryRecheck? && !sh.closed {
      MoveToToken(sh, p.index, sh2, i);
    } else {
      StayPut(sh, sh2, i);
    }
  }

  lemma AcquireBalance(t: nat, a: Action, sh: Shared, p: AcqPc, sh2: Shared, pc2: Pc, i: nat)
    requires AcquireStep(t, a, sh, p, sh2, pc2)
    ensures Balanced(sh, Acquiring(p), sh2, pc2, i)
  {
    hide Account, Shift;
    if p.MakeNode? {
      MoveNewNode(sh, NewNode(p.call, t), sh2, i);
    } else if p.AcqLate? && !Expired(p.deadline, sh.now) {
      MoveToToken(sh, p.index, sh2, i);
    } else {
      StayPut(sh, sh2, i);
    }
  }

  lemma ClaimHit(t: nat, a: Action, sh: Shared, p: ClaimPc, sh2: Shared, pc2: Pc, i: nat)
    requires Tagged(sh, Claiming(p)) && ClaimStep(t, a, sh, p, sh2, pc2)
    requires p.Cas? && !a.Fail? && p.snap != {} && WordBits(sh.bits, p.word) == p.snap
    ensures Balanced(sh, Claiming(p), sh2, pc2, i)
  {
    hide Account, Shift;
    var j := Lowest(p.snap);
    assert j in WordBits(sh.bits, p.word);
    MoveToThread(sh, j, sh2, i);
    match p.purpose
    case ForTry => case ForFast(_) => case ForTake => case ForStrong(_) => case ForServe =>
  }

  lemma ClaimMiss(w: nat, seen: set<nat>, why: Purpose, sh: Shared, pc: Pc, sh2: Shared, pc2: Pc, i: nat)
    requires pc.Claiming? && Observe(w, seen, why, sh, sh2, pc2)
    ensures Balanced(sh, pc, sh2, pc2, i)
  {
    hide Account, Shift;
    match why
    case ForTry => StayPut(sh, sh2, i);
    case ForFast(_) => StayPut(sh, sh2, i);
    case ForTake => StayPut(sh, sh2, i);
    case ForStrong(_) => StayPut(sh, sh2, i);
    case ForServe => StayPut(sh, sh2, i);
  }

  lemma ClaimBalance(t: nat, a: Action, sh: Shared, p: ClaimPc, sh2: Shared, pc2: Pc, i: nat)
    requires Tagged(sh, Claiming(p)) && ClaimStep(t, a, sh, p, sh2, pc2)
    ensures Balanced(sh, Claiming(p), sh2, pc2, i)
  {
    hide Balanced, Tagged, Observe;
    if p.Scan? || a.Fail? || p.snap == {} || WordBits(sh.bits, p.word) != p.snap {
      ClaimMiss(p.word, WordBits(sh.bits, p.word), p.purpose, sh, Claiming(p), sh2, pc2, i);
    } else {
      ClaimHit(t, a, sh, p, sh2, pc2, i);
    }
  }

  lemma ReleaseBalance(t: nat, a: Action, sh: Shared, p: RelPc, sh2: Shared, pc2: Pc, i: nat)
    requires Tagged(sh, Releasing(p)) && ReleaseStep(t, a, sh, p, sh2, pc2)
    ensures Balanced(sh, Releasing(p), sh2, pc2, i)
  {
    hide Account, Shift;
    if p.RelPublish? {
      assert Holds(Releasing(p), p.index);
      MoveToIdle(sh, p.index, sh2, i);
    } else {
      StayPut(sh, sh2, i);
    }
  }

  lemma ReclaimBalance(t: nat, a: Action, sh: Shared, p: RecPc, sh2: Shared, pc2: Pc, i: nat)
    requires Tagged(sh, Reclaiming(p)) && ReclaimStep(t, a, sh, p, sh2, pc2)
    ensures Balanced(sh, Reclaiming(p), sh2, pc2, i)
  {
    hide Account, Shift;
    if p.QuarLock? {
      assert Holds(Reclaiming(p), p.index);
      MoveToQuarantine(sh, p.index, sh2, i);
    } else if p.ReclaimCas? && !a.Fail? && p.index in p.snap && WordBits(sh.bits, Word(p.index)) == p.snap {
      assert p.index in WordBits(sh.bits, Word(p.index));
      MoveToThread(sh, p.index, sh2, i);
    } else {
      StayPut(sh, sh2, i);
    }
  }

  lemma TakeBalance(t: nat, a: Action, sh: Shared, p: TakePc, sh2: Shared, pc2: Pc, i: nat)
    requires Tagged(sh, Taking(p)) && TakeStep(t, a, sh, p, sh2, pc2)
    ensures Balanced(sh, Taking(p), sh2, pc2, i)
  {
    hide Account, Shift;
    if p.TakeLock? {
      assert Holds(Taking(p), p.index);
      if sh.closed {
        MoveToQuarantine(sh, p.index, sh2, i);
      } else if sh.gate != 0 {
        MoveToIdle(sh, p.index, sh2, i);
      } else {
        MoveToReserve(sh, p.index, sh2, i);
      }
    } else {
      StayPut(sh, sh2, i);
    }
  }

  lemma KeepBalance(h: Sequel, sh: Shared, sh2: Shared, pc2: Pc, i: nat)
    requires KeepHandoff(h, sh, sh2, pc2)
    ensures SamePlaces(sh, sh2) && !Holds(pc2, i) && !Swept(pc2, i)
  {
    match h
    case ThenReturn => case ThenServe => case ThenSubmit(_) =>
  }

  lemma GiveUpBalance(sh: Shared, j: nat, h: Sequel, sh2: Shared, pc2: Pc, i: nat)
    requires Is(sh, j, Borrowed) && j !in sh.bits
    requires KeepHandoff(h, if sh.closed then Quarantine(sh, j) else PublishBit(sh, j), sh2, pc2)
    ensures Balanced(sh, Handing(Handoff(j, h)), sh2, pc2, i)
  {
    hide Account, KeepHandoff, Quarantine, PublishBit;
    KeepBalance(h, if sh.closed then Quarantine(sh, j) else PublishBit(sh, j), sh2, pc2, i);
    if sh.closed {
      MoveToQuarantine(sh, j, sh2, i);
    } else {
      MoveToIdle(sh, j, sh2, i);
    }
  }

  lemma HandoffBalance(t: nat, a: Action, sh: Shared, p: HandPc, sh2: Shared, pc2: Pc, i: nat)
    requires Tagged(sh, Handing(p)) && HandoffStep(t, a, sh, p, sh2, pc2)
    ensures Balanced(sh, Handing(p), sh2, pc2, i)
  {
    hide Account, Shift, KeepHandoff, Quarantine, PublishBit;
    if p.Handoff? && (sh.closed || sh.queue == []) {
      assert Holds(Handing(p), p.index);
      GiveUpBalance(sh, p.index, p.sequel, sh2, pc2, i);
    } else {
      StayPut(sh, sh2, i);
    }
  }

  lemma SweepWordBalance(sh: Shared, w: nat, sh2: Shared, i: nat)
    requires Tagged(sh, Sweeping(SweepWord(w))) && sh2 == sh.(bits := sh.bits - WordBits(sh.bits, w))
    ensures Balanced(sh, Sweeping(SweepWord(w)), sh2, Sweeping(SweepBits(w, WordBits(sh.bits, w))), i)
  {
    assert i in WordBits(sh.bits, w) <==> i in sh.bits && i !in sh2.bits;
  }

  lemma SweepBalance(t: nat, a: Action, sh: Shared, p: SweepPc, sh2: Shared, pc2: Pc, i: nat)
    requires Tagged(sh, Sweeping(p)) && SweepStep(t, a, sh, p, sh2, pc2)
    ensures Balanced(sh, Sweeping(p), sh2, pc2, i)
  {
    hide Account, Shift;
    if p.SweepWord? {
      hide Tagged, Balanced;
      SweepWordBalance(sh, p.word, sh2, i);
    } else if p.SweepBits? && p.left != {} {
      assert Swept(Sweeping(p), Lowest(p.left));
      MoveToQuarantine(sh, Lowest(p.left), sh2, i);
    } else {
      StayPut(sh, sh2, i);
    }
  }

  lemma BeginBalance(t: nat, c: CallAction, sh: Shared, sh2: Shared, pc2: Pc, i: nat)
    requires BeginStep(t, c, sh, sh2, pc2)
    ensures Balanced(sh, Outside, sh2, pc2, i)
  {
    hide Account, Shift;
    if c.BeginRelease? || c.BeginQuarantine? {
      MoveFromToken(sh, c.index, sh2, i);
    } else {
      StayPut(sh, sh2, i);
    }
  }

  lemma ReserveBalance(t: nat, c: TokenAction, sh: Shared, sh2: Shared, pc2: Pc, i: nat)
    requires c.BeginReserve? || c.BeginTakeQuarantined?
    requires Tagged(sh, Outside) && TokenStep(t, c, sh, sh2, pc2)
    ensures Balanced(sh, Outside, sh2, pc2, i)
  {
    hide Account, Shift;
    if c.BeginReserve? {
      if sh.closed || sh.vacant == [] { StayPut(sh, sh2, i); } else { MoveOutOfVacant(sh, sh2, i); }
    } else {
      if sh.closed || sh.quarantined == [] { StayPut(sh, sh2, i); } else { MoveOutOfQuarantine(sh, sh2, i); }
    }
  }

  lemma RollbackBalance(t: nat, j: nat, sh: Shared, sh2: Shared, pc2: Pc, i: nat)
    requires Tagged(sh, Outside) && TokenStep(t, BeginRollback(j), sh, sh2, pc2)
    ensures Balanced(sh, Outside, sh2, pc2, i)
  {
    hide Account, Shift;
    assert sh.filled[j] >= 0 && sh.blank[j] >= 0;
    assert sh.filled == sh.filled - multiset{} && sh.blank == sh.blank - multiset{};
    MoveToVacant(sh, j, sh2, i);
  }

  lemma TokenBalance(t: nat, c: TokenAction, sh: Shared, sh2: Shared, pc2: Pc, i: nat)
    requires Tagged(sh, Outside) && TokenStep(t, c, sh, sh2, pc2)
    ensures Balanced(sh, Outside, sh2, pc2, i)
  {
    hide Account, Shift;
    match c
    case BeginReserve => ReserveBalance(t, c, sh, sh2, pc2, i);
    case BeginTakeQuarantined => ReserveBalance(t, c, sh, sh2, pc2, i);
    case BeginRollback(j) => RollbackBalance(t, j, sh, sh2, pc2, i);
    case BeginEmplace(j) => MoveInToken(sh, j, sh2, i);
    case BeginDestroy(j) => MoveInToken(sh, j, sh2, i);
    case BeginPublish(j) =>
      assert sh.filled[j] > 0;
      if sh.closed { StayPut(sh, sh2, i); } else { MoveFromReserve(sh, j, sh2, i); }
  }

  lemma CountBalance(t: nat, a: Action, sh: Shared, pc: Pc, sh2: Shared, pc2: Pc, i: nat)
    requires pc.Counting? && CountStep(t, a, sh, pc, sh2, pc2)
    ensures Balanced(sh, pc, sh2, pc2, i)
  {
    StayPut(sh, sh2, i);
  }

  lemma StrongTake(sh: Shared, j: nat, n: nat, sh2: Shared, i: nat)
    requires n < |sh.nodes| && sh.nodes[n].state == Queued && !sh.nodes[n].taken
    requires sh2 == SetNode(sh, n, sh.nodes[n].(taken := true))
                    .(borrowed := sh.borrowed + multiset{j}, owner := -1, answers := sh2.answers)
    ensures Balanced(sh, Registering(StrongLate(j, n)), sh2, Outside, i)
  {
    NodeCountSet(sh.nodes, n, sh2.nodes[n], i);
  }

  lemma StrongLends(t: nat, sh: Shared, j: nat, n: nat, sh2: Shared, pc2: Pc)
    requires n < |sh.nodes| && StrongClaim(t, sh, j, n, sh2, pc2)
    requires sh.nodes[n].kind.Sync? && !Expired(sh.nodes[n].deadline, sh.now)
    ensures pc2 == Outside
    ensures sh2 == SetNode(sh, n, sh.nodes[n].(taken := true))
                   .(borrowed := sh.borrowed + multiset{j}, owner := -1, answers := sh2.answers)
  {
    hide Expired;
  }

  lemma StrongMoves(t: nat, sh: Shared, j: nat, n: nat, sh2: Shared, pc2: Pc)
    requires n < |sh.nodes| && StrongClaim(t, sh, j, n, sh2, pc2) && sh.nodes[n].state == Queued && !sh.nodes[n].taken
    requires sh.nodes[n].kind.Async? || Expired(sh.nodes[n].deadline, sh.now)
    ensures |sh2.nodes| == |sh.nodes| && SamePlaces(SetNode(sh, n, sh2.nodes[n]), sh2)
    ensures forall i: nat :: NodeHolds(sh2.nodes[n], i) || Holds(pc2, i) <==> i == j
    ensures forall i: nat :: !(NodeHolds(sh2.nodes[n], i) && Holds(pc2, i)) && !Swept(pc2, i)
  {
  }

  lemma StrongBalance(t: nat, sh: Shared, j: nat, n: nat, sh2: Shared, pc2: Pc, i: nat)
    requires n < |sh.nodes| && StrongClaim(t, sh, j, n, sh2, pc2) && sh.nodes[n].state == Queued && !sh.nodes[n].taken
    ensures Balanced(sh, Registering(StrongLate(j, n)), sh2, pc2, i)
  {
    hide StrongClaim, Expired;
    if sh.nodes[n].kind.Sync? && !Expired(sh.nodes[n].deadline, sh.now) {
      StrongLends(t, sh, j, n, sh2, pc2);
      hide Balanced;
      StrongTake(sh, j, n, sh2, i);
    } else {
      StrongMoves(t, sh, j, n, sh2, pc2);
      hide Account, Shift;
      MoveNode(sh, n, sh2, i);
    }
  }

  lemma QueueCallBalance(t: nat, a: Action, sh: Shared, p: RegPc, sh2: Shared, pc2: Pc, i: nat)
    requires p.Push? || p.ArmTimer?
    requires RegisterOk(sh, t, p) && QueueOk(sh) && RegisterStep(t, a, sh, p, sh2, pc2)
    ensures Balanced(sh, Registering(p), sh2, pc2, i)
  {
    hide Account, Shift;
    assert NodeOk(sh, p.node);
    MoveNode(sh, p.node, sh2, i);
  }

  lemma EndCallBalance(t: nat, a: Action, sh: Shared, p: RegPc, sh2: Shared, pc2: Pc, i: nat)
    requires p.RegLock? || p.RegExpired?
    requires RegisterOk(sh, t, p) && RegisterStep(t, a, sh, p, sh2, pc2)
    ensures Balanced(sh, Registering(p), sh2, pc2, i)
  {
    hide Account, Shift;
    MoveNode(sh, p.node, sh2, i);
  }

  lemma RegisterBalance(t: nat, a: Action, sh: Shared, p: RegPc, sh2: Shared, pc2: Pc, i: nat)
    requires Ok(sh, t, Registering(p)) && QueueOk(sh) && RegisterStep(t, a, sh, p, sh2, pc2)
    ensures Balanced(sh, Registering(p), sh2, pc2, i)
  {
    hide Account, Shift, StrongClaim, QueueOk;
    match p
    case StrongLate(j, n) => StrongBalance(t, sh, j, n, sh2, pc2, i);
    case RegLock(n) => EndCallBalance(t, a, sh, p, sh2, pc2, i);
    case RegExpired(n) => EndCallBalance(t, a, sh, p, sh2, pc2, i);
    case Push(n) => QueueCallBalance(t, a, sh, p, sh2, pc2, i);
    case ArmTimer(n) => QueueCallBalance(t, a, sh, p, sh2, pc2, i);
    case _ => StayPut(sh, sh2, i);
  }

  lemma SleepBalance(t: nat, a: Action, sh: Shared, p: SleepPc, sh2: Shared, pc2: Pc, i: nat)
    requires Ok(sh, t, Sleeping(p)) && SleepStep(t, a, sh, p, sh2, pc2)
    ensures Balanced(sh, Sleeping(p), sh2, pc2, i)
  {
    hide Account, Shift;
    if p.Pin? {
      MoveResult(sh, p.node, sh2, i);
    } else {
      MoveNode(sh, p.node, sh2, i);
    }
  }

  lemma ResumeHolds(after: After, i: nat)
    ensures Holds(Resume(after), i) == (after.AfterRetry? && after.index == i) && !Swept(Resume(after), i)
  {
    match after
    case AfterRetry(_, _) =>
    case AfterGive(h) => match h { case ThenReturn => case ThenServe => case ThenSubmit(_) => }
    case AfterDrain =>
    case AfterSelect =>
  }

  lemma HandOverBalance(t: nat, a: Action, sh: Shared, p: CompPc, sh2: Shared, pc2: Pc, i: nat)
    requires p.Notify? || p.Submit?
    requires CompleteStep(t, a, sh, p, sh2, pc2)
    ensures Balanced(sh, Completing(p), sh2, pc2, i)
  {
    hide Account, Shift, Resume;
    MoveNode(sh, p.node, sh2, i);
    ResumeHolds(p.after, i);
  }

  /** Selection changes the state of one node and leaves its slot alone. */
  lemma Selected(t: nat, sh: Shared, n: nat, st: WaiterState, after: After, sh2: Shared, pc2: Pc, i: nat)
    requires CompleteNode(t, sh, n, st, after, sh2, pc2)
    ensures n < |sh.nodes| == |sh2.nodes| && SamePlaces(SetNode(sh, n, sh2.nodes[n]), sh2)
    ensures sh2.nodes[n].state == st && sh2.nodes[n].slot == sh.nodes[n].slot && sh2.nodes[n].taken == sh.nodes[n].taken
    ensures Holds(pc2, i) == (after.AfterRetry? && after.index == i) && !Swept(pc2, i)
  {
    hide Without;
  }

  lemma GiveBalance(t: nat, a: Action, sh: Shared, p: CompPc, sh2: Shared, pc2: Pc, i: nat)
    requires p.Give?
    requires CompleteOk(sh, t, p) && QueueOk(sh) && CompleteStep(t, a, sh, p, sh2, pc2)
    ensures Balanced(sh, Completing(p), sh2, pc2, i)
  {
    assert NodeOk(sh, p.node);
    var u := SetNode(sh, p.node, sh.nodes[p.node].(slot := p.index));
    Selected(t, u, p.node, Assigned, AfterGive(p.sequel), sh2, pc2, i);
    hide Account, Shift, CompleteStep, QueueOk;
    assert SetNode(u, p.node, sh2.nodes[p.node]) == SetNode(sh, p.node, sh2.nodes[p.node]);
    MoveNode(sh, p.node, sh2, i);
  }

  lemma SelectBalance(t: nat, a: Action, sh: Shared, p: CompPc, sh2: Shared, pc2: Pc, i: nat)
    requires p.Complete?
    requires CompleteOk(sh, t, p) && QueueOk(sh) && CompleteStep(t, a, sh, p, sh2, pc2)
    ensures Balanced(sh, Completing(p), sh2, pc2, i)
  {
    assert NodeOk(sh, p.node);
    Selected(t, sh, p.node, p.outcome, p.after, sh2, pc2, i);
    hide Account, Shift, CompleteStep, QueueOk;
    MoveNode(sh, p.node, sh2, i);
  }

  lemma CompleteBalance(t: nat, a: Action, sh: Shared, p: CompPc, sh2: Shared, pc2: Pc, i: nat)
    requires Ok(sh, t, Completing(p)) && QueueOk(sh) && CompleteStep(t, a, sh, p, sh2, pc2)
    ensures Balanced(sh, Completing(p), sh2, pc2, i)
  {
    hide Balanced, QueueOk, CompleteStep;
    if p.Notify? || p.Submit? {
      HandOverBalance(t, a, sh, p, sh2, pc2, i);
    } else if p.Give? {
      GiveBalance(t, a, sh, p, sh2, pc2, i);
    } else {
      SelectBalance(t, a, sh, p, sh2, pc2, i);
    }
  }

  lemma SettleCallBalance(t: nat, a: Action, sh: Shared, p: SettlePc, sh2: Shared, pc2: Pc, i: nat)
    requires p.SubmitInit? || p.Unregister?
    requires SettleOk(sh, t, p) && QueueOk(sh) && SettleStep(t, a, sh, p, sh2, pc2)
    ensures Balanced(sh, Settling(p), sh2, pc2, i)
  {
    hide Account, Shift;
    assert NodeOk(sh, p.node);
    hide QueueOk;
    MoveNode(sh, p.node, sh2, i);
  }

  lemma SettleBalance(t: nat, a: Action, sh: Shared, p: SettlePc, sh2: Shared, pc2: Pc, i: nat)
    requires Ok(sh, t, Settling(p)) && QueueOk(sh) && SettleStep(t, a, sh, p, sh2, pc2)
    ensures Balanced(sh, Settling(p), sh2, pc2, i)
  {
    hide Account, Shift;
    if p.SubmitInit? || p.Unregister? {
      hide Balanced, QueueOk, SettleStep;
      SettleCallBalance(t, a, sh, p, sh2, pc2, i);
    } else if p.node < |sh.nodes| {
      assert NodeOk(sh, p.node);
      hide QueueOk, Without;
      MoveNode(sh, p.node, sh2, i);
    } else {
      StayPut(sh, sh2, i);
    }
  }

  lemma EventBalance(t: nat, c: EventAction, sh: Shared, sh2: Shared, pc2: Pc, i: nat)
    requires QueueOk(sh) && EventStep(t, c, sh, sh2, pc2)
    ensures Balanced(sh, Outside, sh2, pc2, i)
  {
    hide Account, Shift;
    match c
    case BeginDeliver(n) =>
      assert NodeOk(sh, n);
      MoveResult(sh, n, sh2, i);
    case BeginAbandon(n) =>
      assert NodeOk(sh, n);
      MoveNode(sh, n, sh2, i);
    case _ => StayPut(sh, sh2, i);
  }
}
