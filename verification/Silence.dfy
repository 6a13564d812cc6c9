/** What a scale-in does while pods do not answer: it takes a departing shard that shows no slots for an empty one. */
module Silence {
  import opened Wrappers
  import opened Cluster
  import opened Names
  import opened Fake
  import opened Membership
  import opened Scaling
  import opened Teardown

  /** Some declared pod of the shard owns slots. */
  ghost predicate OwnsSome(ns: Nodes, cr: ValkeyCluster, i: nat) {
    exists j: nat :: j <= cr.replicas && OwnerAt(ns, cr, i, j)
  }

  /** The listed departing shards up to i show no slots. */
  ghost predicate QuietUpTo(ns: Nodes, cr: ValkeyCluster, idxs: seq<nat>, silent: set<string>, i: nat) {
    forall j | j in idxs && cr.shards <= j <= i :: OwnersSilent(ns, cr, j, silent)
  }

  /** The listing is ascending and has every departing shard. */
  ghost predicate Ordered(cr: ValkeyCluster, shards: set<nat>, idxs: seq<nat>) {
    && (forall a, b | 0 <= a < b < |idxs| :: idxs[a] < idxs[b]) && (forall i | i in idxs :: i in shards)
    && forall i | i in shards && i >= cr.shards :: i in idxs
  }

  lemma OrderedRest(cr: ValkeyCluster, shards: set<nat>, idxs: seq<nat>)
    requires Ordered(cr, shards, idxs) && idxs != []
    ensures idxs[0] < cr.shards ==> Ordered(cr, shards, idxs[1..])
    ensures idxs[0] >= cr.shards ==> Ordered(cr, shards - {idxs[0]}, idxs[1..])
    ensures idxs[0] in shards && (forall i | i in idxs :: idxs[0] <= i)
    ensures forall i :: i in idxs <==> i == idxs[0] || i in idxs[1..]
    ensures idxs[0] !in idxs[1..]
  {
    var rest := idxs[1..];
    assert forall i | i in idxs :: i == idxs[0] || i in rest;
    assert forall i | i in rest :: i in idxs && idxs[0] < i;
  }

  // ---- dropping a shard ----

  lemma DropOther(ns: Nodes, cr: ValkeyCluster, i: nat, silent: set<string>, j: nat)
    requires i != j
    ensures OwnersSilent(Drop(ns, cr, i, silent), cr, j, silent) <==> OwnersSilent(ns, cr, j, silent)
    ensures OwnsSome(Drop(ns, cr, i, silent), cr, j) <==> OwnsSome(ns, cr, j)
  {
    hide PodFQDN, PodIndex, NodeInfo.OwnsSlots;
    forall o: nat | o <= cr.replicas
      ensures OwnerAt(Drop(ns, cr, i, silent), cr, j, o) <==> OwnerAt(ns, cr, j, o)
    {
      assert Shard(cr, PodFQDN(cr, j, o)) == j;
    }
  }

  /** Those that answer of a shard whose owners are silent have no slots. */
  lemma DropKeepsTotal(ns: Nodes, cr: ValkeyCluster, i: nat, silent: set<string>)
    requires AllProper(ns) && OwnersSilent(ns, cr, i, silent)
    ensures Total(Drop(ns, cr, i, silent)) == Total(ns)
  {
    hide PodFQDN, PodIndex, CountRanges, Total, Proper;
    var after := Drop(ns, cr, i, silent);
    forall h | h in ns && h !in after
      ensures ns[h].SlotCount() == 0
    {
      ProperNode(ns[h]);
      var o := Ordinal(cr, h);
      assert h == PodFQDN(cr, i, o);
      assert OwnerAt(ns, cr, i, o) ==> h in silent;
    }
    EmptyNodesCountNothing(after, ns);
  }

  // ---- what the pass drops ----

  lemma {:induction false} PassShrinks(
    cr: ValkeyCluster, ns: Nodes, shards: set<nat>, idxs: seq<nat>, silent: set<string>)
    ensures PassFrom(cr, ns, shards, idxs, silent).1 <= shards
    ensures forall i | i in shards && i < cr.shards :: i in PassFrom(cr, ns, shards, idxs, silent).1
    decreases |idxs|
  {
    hide HeardPrimary, ShowsSlots, SlotsMoved, SurvivorFrom, Drop, CountRanges;
    if idxs != [] {
      PassShrinks(cr, ns, shards, idxs[1..], silent);
      PassShrinks(cr, Drop(ns, cr, idxs[0], silent), shards - {idxs[0]}, idxs[1..], silent);
    }
  }

  /** A pass deletes a departing shard exactly if all slot owners among the declared pods of it, and of the departing
      shards before it, are silent. */
  lemma {:induction false} PassDropsIff(
    cr: ValkeyCluster, ns: Nodes, shards: set<nat>, idxs: seq<nat>, silent: set<string>, i: nat)
    requires AllProper(ns) && Ordered(cr, shards, idxs) && i in shards && i >= cr.shards
    ensures i !in PassFrom(cr, ns, shards, idxs, silent).1 <==> QuietUpTo(ns, cr, idxs, silent, i)
    decreases |idxs|
  {
    hide HeardPrimary, ShowsSlots, SlotsMoved, SurvivorFrom, Drop, CountRanges, OwnersSilent, Proper;
    assert i in idxs;
    OrderedRest(cr, shards, idxs);
    var first, rest := idxs[0], idxs[1..];
    HeardOwns(ns, cr, first, silent);
    if first < cr.shards {
      PassDropsIff(cr, ns, shards, rest, silent, i);
    } else if ShowsSlots(ns, HeardPrimary(ns, cr, first, silent)) {
      assert first <= i;
    } else {
      var now := Drop(ns, cr, first, silent);
      DropProper(ns, cr, first, silent);
      forall j | j in rest
        ensures OwnersSilent(now, cr, j, silent) <==> OwnersSilent(ns, cr, j, silent)
      {
        DropOther(ns, cr, first, silent, j);
      }
      if i == first {
        PassShrinks(cr, now, shards - {first}, rest, silent);
      } else {
        PassDropsIff(cr, now, shards - {first}, rest, silent, i);
      }
    }
  }

  lemma DropProper(ns: Nodes, cr: ValkeyCluster, i: nat, silent: set<string>)
    requires AllProper(ns)
    ensures AllProper(Drop(ns, cr, i, silent))
  {
    hide Proper, PodFQDN, PodIndex;
  }

  // ---- what is left of the shards dropped ----

  lemma {:induction false} SurvivorIs(idx: Nodes, cr: ValkeyCluster, exclude: string, s: nat, silent: set<string>)
    requires AllProper(idx)
    ensures var to := SurvivorFrom(idx, cr, exclude, s, silent);
            to != "" ==> to != exclude && IsPod(cr, to) && Shard(cr, to) < cr.shards
    decreases cr.shards - s
  {
    hide HeardPrimary, IsPod, Shard, AllProper;
    if s < cr.shards {
      HeardOwns(idx, cr, s, silent);
      SurvivorIs(idx, cr, exclude, s + 1, silent);
    }
  }

  /** The nodes of departing shards that are not in `left` are unchanged, and the silent ones among them are there. */
  ghost predicate LeavesGone(cr: ValkeyCluster, ns: Nodes, after: Nodes, left: set<nat>, silent: set<string>) {
    && (forall h | h in after :: h in ns)
    && (forall h | h in after && Shard(cr, h) >= cr.shards && Shard(cr, h) !in left :: after[h] == ns[h])
    && (forall h | h in ns && Shard(cr, h) >= cr.shards && Shard(cr, h) !in left && h in silent :: h in after)
  }

  lemma BatchLeavesGone(cr: ValkeyCluster, ns: Nodes, shards: set<nat>, i: nat, silent: set<string>)
    requires AllProper(ns) && i in shards && i >= cr.shards && ShowsSlots(ns, HeardPrimary(ns, cr, i, silent))
    ensures var p := HeardPrimary(ns, cr, i, silent);
            var to := SurvivorFrom(ns, cr, p, 0, silent);
            to != "" ==>
              var after := SlotsMoved(ns, p, to, Batch(ns[p].SlotCount()));
              Total(after) == Total(ns) && AllProper(after) && LeavesGone(cr, ns, after, shards, silent)
  {
    var p := HeardPrimary(ns, cr, i, silent);
    var to := SurvivorFrom(ns, cr, p, 0, silent);
    HeardOwns(ns, cr, i, silent);
    SurvivorIs(ns, cr, p, 0, silent);
    hide HeardPrimary, SurvivorFrom, SlotsMoved, Total, CountRanges, AllProper, Shard, IsPod, Batch;
    if to != "" {
      var n := Batch(ns[p].SlotCount());
      MoveProper(ns, p, to, n);
      MoveTotal(ns, p, to, n);
      MovedNodes(ns, p, to, n);
    }
  }

  lemma MovedNodes(ns: Nodes, from: string, to: string, n: int)
    ensures SlotsMoved(ns, from, to, n).Keys == ns.Keys
    ensures forall h | h in ns && h != from && h != to :: SlotsMoved(ns, from, to, n)[h] == ns[h]
  {
  }

  lemma LeavesNone(cr: ValkeyCluster, ns: Nodes, left: set<nat>, silent: set<string>)
    ensures LeavesGone(cr, ns, ns, left, silent)
  {
  }

  lemma DropLeavesGone(
    cr: ValkeyCluster, ns: Nodes, after: Nodes, left: set<nat>, silent: set<string>, i: nat)
    requires LeavesGone(cr, Drop(ns, cr, i, silent), after, left, silent)
    ensures LeavesGone(cr, ns, after, left, silent)
  {
    hide IsPod, Shard;
  }

  /** Whoever is silent, a pass keeps the number of slots assigned. */
  lemma {:induction false} PassKeepsTotal(
    cr: ValkeyCluster, ns: Nodes, shards: set<nat>, idxs: seq<nat>, silent: set<string>)
    requires AllProper(ns) && Ordered(cr, shards, idxs)
    ensures var (after, left, _) := PassFrom(cr, ns, shards, idxs, silent);
            Total(after) == Total(ns) && AllProper(after) && LeavesGone(cr, ns, after, left, silent)
    decreases |idxs|
  {
    hide HeardPrimary, ShowsSlots, SlotsMoved, SurvivorFrom, Drop, CountRanges, OwnersSilent, AllProper, Total;
    hide LeavesGone;
    LeavesNone(cr, ns, shards, silent);
    if idxs != [] {
      OrderedRest(cr, shards, idxs);
      var first, rest := idxs[0], idxs[1..];
      HeardOwns(ns, cr, first, silent);
      if first < cr.shards {
        PassKeepsTotal(cr, ns, shards, rest, silent);
      } else if ShowsSlots(ns, HeardPrimary(ns, cr, first, silent)) {
        BatchLeavesGone(cr, ns, shards, first, silent);
      } else {
        DropProper(ns, cr, first, silent);
        DropKeepsTotal(ns, cr, first, silent);
        PassKeepsTotal(cr, Drop(ns, cr, first, silent), shards - {first}, rest, silent);
        var (after, left, _) := PassFrom(cr, Drop(ns, cr, first, silent), shards - {first}, rest, silent);
        DropLeavesGone(cr, ns, after, left, silent, first);
      }
    }
  }

  lemma SortedIsOrdered(cr: ValkeyCluster, shards: set<nat>)
    ensures Ordered(cr, shards, Sorted(shards))
  {
    hide Sorted;
  }

  // ---- the sweep that follows ----

  lemma {:induction false} SweptLess(cr: ValkeyCluster, ns: Nodes, shards: set<nat>)
    requires AllProper(ns)
    ensures Total(Swept(cr, ns, shards)) <= Total(ns)
    ensures Total(Swept(cr, ns, shards)) == Total(ns) <==>
            forall h | h in ns && ns[h].OwnsSlots() :: HasPod(cr, shards, h)
  {
    hide Total, CountRanges, Proper, HasPod, NodeInfo.OwnsSlots;
    var swept := Swept(cr, ns, shards);
    TotalMonotone(swept, ns);
    forall h | h in ns
      ensures ns[h].SlotCount() >= 0 && (ns[h].OwnsSlots() <==> ns[h].SlotCount() > 0)
    {
      ProperNode(ns[h]);
    }
    if h :| h in ns && ns[h].OwnsSlots() && !HasPod(cr, shards, h) {
      TotalSplit(ns, h);
      TotalMonotone(swept, ns - {h});
    } else {
      EmptyNodesCountNothing(swept, ns);
    }
  }

  /** A pass deletes a shard that still owns slots exactly if all its slot owners, and those of the departing shards
      before it, are silent; and exactly then the next sweep takes assigned slots away. */
  lemma SilentOwnersLost(cr: ValkeyCluster, ns: Nodes, shards: set<nat>, silent: set<string>)
    requires InPlace(cr, ns, shards)
    ensures var (after, left, _) := PassFrom(cr, ns, shards, Sorted(shards), silent);
            && Total(after) == Total(ns)
            && (forall i | i in shards && i >= cr.shards ::
                  i !in left <==> QuietUpTo(ns, cr, Sorted(shards), silent, i))
            && (Total(Swept(cr, after, left)) < Total(ns) <==>
                  exists i :: i in shards && i >= cr.shards && QuietUpTo(ns, cr, Sorted(shards), silent, i)
                              && OwnsSome(ns, cr, i))
  {
    hide PassFrom, Sorted, QuietUpTo, Total, Swept, OwnsSome, PodFQDN, PodIndex, NodeInfo.OwnsSlots, Proper;
    var idxs := Sorted(shards);
    var (after, left, _) := PassFrom(cr, ns, shards, idxs, silent);
    SortedIsOrdered(cr, shards);
    PassKeepsTotal(cr, ns, shards, idxs, silent);
    PassShrinks(cr, ns, shards, idxs, silent);
    forall i | i in shards && i >= cr.shards
      ensures i !in left <==> QuietUpTo(ns, cr, idxs, silent, i)
    {
      PassDropsIff(cr, ns, shards, idxs, silent, i);
    }
    SweptLess(cr, after, left);
    if h :| h in after && after[h].OwnsSlots() && !HasPod(cr, left, h) {
      StaleOwner(cr, ns, shards, after, left, silent, h);
    }
    if i :| i in shards && i >= cr.shards && QuietUpTo(ns, cr, idxs, silent, i) && OwnsSome(ns, cr, i) {
      OwnerStays(cr, ns, after, left, idxs, silent, i);
    }
  }

  lemma StaleOwner(
    cr: ValkeyCluster, ns: Nodes, shards: set<nat>, after: Nodes, left: set<nat>, silent: set<string>, h: string)
    requires InPlace(cr, ns, shards) && LeavesGone(cr, ns, after, left, silent)
    requires h in after && after[h].OwnsSlots() && !HasPod(cr, left, h)
    requires forall i: nat | i < cr.shards :: i in left
    ensures var i := Shard(cr, h); i in shards && i >= cr.shards && i !in left && OwnsSome(ns, cr, i)
  {
    hide PodFQDN, PodIndex, NodeInfo.OwnsSlots, Proper;
    assert HasPod(cr, shards, h);
    var i, j := Shard(cr, h), Ordinal(cr, h);
    assert h == PodFQDN(cr, i, j) && OwnerAt(ns, cr, i, j);
  }

  lemma OwnerStays(
    cr: ValkeyCluster, ns: Nodes, after: Nodes, left: set<nat>, idxs: seq<nat>, silent: set<string>, i: nat)
    requires LeavesGone(cr, ns, after, left, silent) && i >= cr.shards && i !in left && i in idxs
    requires QuietUpTo(ns, cr, idxs, silent, i) && OwnsSome(ns, cr, i)
    ensures exists h :: h in after && after[h].OwnsSlots() && !HasPod(cr, left, h)
  {
    hide PodFQDN, PodIndex, NodeInfo.OwnsSlots;
    assert OwnersSilent(ns, cr, i, silent);
    var j: nat :| j <= cr.replicas && OwnerAt(ns, cr, i, j);
    var h := PodFQDN(cr, i, j);
    assert Shard(cr, h) == i && h in silent;
  }

  /** Two shards with half of the slots each, the second departing while its only pod is silent: the pass deletes it,
      and the next sweep leaves half of the slots unassigned. */
  lemma SilentShardIsDropped()
    ensures var cr := ValkeyCluster("vc", "default", 1, 0);
            var a, b := PodFQDN(cr, 0, 0), PodFQDN(cr, 1, 0);
            var ns := map[a := Fresh(a).(slots := [SlotRange(0, 8191)]),
                          b := Fresh(b).(slots := [SlotRange(8192, 16383)])];
            && InPlace(cr, ns, {0, 1}) && Total(ns) == TOTAL_SLOTS
            && 1 !in PassFrom(cr, ns, {0, 1}, Sorted({0, 1}), {b}).1
            && var (after, left, _) := PassFrom(cr, ns, {0, 1}, Sorted({0, 1}), {b});
               Total(Swept(cr, after, left)) < TOTAL_SLOTS
  {
    hide PodFQDN, PodIndex, Fresh, Total, PassFrom, Sorted, Swept, CountRanges, NodeInfo.OwnsSlots, Proper;
    var cr := ValkeyCluster("vc", "default", 1, 0);
    var a, b := PodFQDN(cr, 0, 0), PodFQDN(cr, 1, 0);
    var na, nb := Fresh(a).(slots := [SlotRange(0, 8191)]), Fresh(b).(slots := [SlotRange(8192, 16383)]);
    var ns := map[a := na, b := nb];
    assert Shard(cr, a) == 0 && Ordinal(cr, a) == 0 && Shard(cr, b) == 1 && Ordinal(cr, b) == 0 && a != b;
    HalfOwner(a, SlotRange(0, 8191));
    HalfOwner(b, SlotRange(8192, 16383));
    EmptyTotal();
    TotalUpdate(map[], a, na);
    TotalUpdate(map[a := na], b, nb);
    assert ns == map[a := na][b := nb];
    assert HasPod(cr, {0, 1}, a) && HasPod(cr, {0, 1}, b);
    assert InPlace(cr, ns, {0, 1});
    var idxs := Sorted({0, 1});
    assert OwnerAt(ns, cr, 1, 0) && OwnsSome(ns, cr, 1);
    assert OwnersSilent(ns, cr, 1, {b});
    assert QuietUpTo(ns, cr, idxs, {b}, 1);
    SilentOwnersLost(cr, ns, {0, 1}, {b});
  }

  lemma HalfOwner(h: string, r: SlotRange)
    requires r.start + 8191 == r.end
    ensures var n := Fresh(h).(slots := [r]);
            n.id == h && n.host == h && n.SlotCount() == 8192 && n.OwnsSlots() && Proper(n)
  {
    assert CountRanges([r]) == 8192 + CountRanges([]);
  }
}
