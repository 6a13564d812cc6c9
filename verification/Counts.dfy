/** The fake moves as many slots as the real mover, and leaves the same slot count on every node. */
module Counts {
  import opened Wrappers
  import opened Cluster
  import opened SlotState
  import opened Masters
  import opened Mover
  import opened Fake
  import opened Scaling

  /** The slots at rest on a master. */
  ghost function Owned(c: State, x: NodeId): set<int> {
    set s | s in c && Settled(c[s], x)
  }

  /** The node lists exactly the slots at rest on it, and every listed master has a view of each of them. */
  ghost predicate ListsOwned(c: State, node: NodeInfo, ms: seq<NodeId>, dst: NodeId) {
    && Disjoint(node.slots) && node.id != dst
    && (forall s :: Covers(node.slots, s) <==> s in Owned(c, node.id))
    && (forall s | s in Owned(c, node.id) :: dst in c[s] && forall n | n in c[s] :: n in ms)
  }

  lemma TakenSlots(c: State, node: NodeInfo, ms: seq<NodeId>, dst: NodeId, n: nat)
    requires ListsOwned(c, node, ms, dst)
    ensures var list := SlotsToMove(node, n);
            && Distinct(list) && Elems(list) <= Owned(c, node.id)
            && |list| == Takes(node, n) && node.SlotCount() == |Owned(c, node.id)|
  {
    hide CountRanges, Settled;
    DisjointExpand(node.slots);
    ExpandIs(node.slots);
    var all := Expand(node.slots);
    DistinctSize(all);
    hide Expand, Covers;
    assert Elems(all) == Owned(c, node.id);
    assert forall s | s in SlotsToMove(node, n) :: s in all;
  }

  /** An error-free move hands exactly the listed slots from one node to the other. */
  lemma MovedOwned(
    c: State, c': State, trace: seq<State>, i: nat, list: seq<int>, ms: seq<NodeId>, src: NodeId, dst: NodeId,
    x: NodeId)
    requires src != dst && Distinct(list) && Elems(list) <= Owned(c, src)
    requires forall s | s in Owned(c, src) :: dst in c[s] && forall n | n in c[s] :: n in ms
    requires Run(c, c', trace, i, list, |list|, |list|, ms, src, dst)
    ensures Owned(c', x) ==
            if x == src then Owned(c, x) - Elems(list) else if x == dst then Owned(c, x) + Elems(list) else Owned(c, x)
  {
    hide AlwaysReadable, AllInterrupted, TraceAllWithin, Advances, InFlight, HandedOver;
    assert list[..|list|] == list;
    forall s | s in c
      ensures s in list ==> (Settled(c'[s], x) <==> x == dst) && (Settled(c[s], x) <==> x == src)
      ensures s !in list ==> c'[s] == c[s]
    {
      if s in list {
        assert s in Elems(list);
        SettledIsInFlight(c[s], src, dst);
        HandedOverIsSettled(c[s], src, dst);
        assert c'[s] == HandedOver(c[s], src, dst);
      }
    }
  }

  /** The fake's slot counts are those of the masters. */
  ghost predicate SameCounts(ns: Nodes, c: State) {
    forall x | x in ns :: ns[x].SlotCount() == |Owned(c, x)|
  }

  /** An error-free real move of n slots and the fake's agree: the same number moved, the same count on every node. */
  lemma FakeMovesAlike(
    ns: Nodes, c: State, c': State, trace: seq<State>, i: nat, node: NodeInfo, n: nat, ms: seq<NodeId>, dst: NodeId)
    requires AllProper(ns) && SameCounts(ns, c) && node.id in ns && dst in ns && ListsOwned(c, node, ms, dst)
    requires var list := SlotsToMove(node, n); Run(c, c', trace, i, list, |list|, |list|, ms, node.id, dst)
    ensures |SlotsToMove(node, n)| == Takes(ns[node.id], n)
    ensures SameCounts(SlotsMoved(ns, node.id, dst, n), c')
    ensures Total(SlotsMoved(ns, node.id, dst, n)) == Total(ns)
  {
    hide CountRanges, Owned, Run, SlotsToMove, SlotsMoved, Total, AllProper;
    var src, list := node.id, SlotsToMove(node, n);
    TakenSlots(c, node, ms, dst, n);
    DistinctSize(list);
    var moved := Takes(ns[src], n);
    MoveCapped(ns, src, dst, n);
    MoveShifts(ns, src, dst, moved);
    forall x | x in ns
      ensures SlotsMoved(ns, src, dst, n)[x].SlotCount() == |Owned(c', x)|
    {
      MovedOwned(c, c', trace, i, list, ms, src, dst, x);
      OwnedOnce(c, src, dst);
      SizeOfParts(Owned(c, x), Elems(list));
    }
  }

  lemma OwnedOnce(c: State, a: NodeId, b: NodeId)
    requires a != b
    ensures Owned(c, a) !! Owned(c, b)
  {
    forall s | s in Owned(c, a)
      ensures s !in Owned(c, b)
    {
      assert c[s][a].owner == a;
    }
  }

  lemma SizeOfParts(a: set<int>, b: set<int>)
    ensures b <= a ==> |a - b| == |a| - |b|
    ensures a !! b ==> |a + b| == |a| + |b|
  {
    if b <= a {
      assert a == (a - b) + b;
    }
  }

  /** Asking for more slots than there are moves what there is. */
  lemma MoveCapped(ns: Nodes, from: string, to: string, n: int)
    requires from in ns && to in ns
    ensures SlotsMoved(ns, from, to, n) == SlotsMoved(ns, from, to, Takes(ns[from], n))
  {
    hide CountRanges, WithSlots, AsMaster;
  }

  /** What the real mover takes: nothing when asked for a negative number. */
  function RealTakes(node: NodeInfo, n: int): int {
    if n <= 0 then 0 else Takes(node, n)
  }

  /** The two agree on the source's count exactly for the numbers of slots one would ask for; for a negative
      number the fake moves slots backwards. */
  lemma FakeAgreesIff(ns: Nodes, from: string, to: string, n: int)
    requires AllProper(ns) && from in ns && to in ns && from != to
    ensures SlotsMoved(ns, from, to, n)[from].SlotCount() == ns[from].SlotCount() - RealTakes(ns[from], n) <==> n >= 0
  {
    hide CountRanges, AsMaster, CountToRanges, Proper;
    ProperNode(ns[from]);
    CountOfCount(ns[from].SlotCount() - Takes(ns[from], n));
  }
}
