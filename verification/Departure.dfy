/** How many passes a scale-in takes, and what holds after each of them. */
module Departure {
  import opened Wrappers
  import opened Cluster
  import opened Names
  import opened Fake
  import opened Membership
  import opened Scaling
  import opened Teardown
  import opened Status

  // ---- the work left ----

  /** How many batches it takes to drain so many slots. */
  function Batches(count: int): nat {
    if count <= 0 then 0 else (count + DRAIN_BATCH - 1) / DRAIN_BATCH
  }

  /** One for every 1024 slots, and one more for what remains. */
  lemma BatchesAre(count: nat)
    ensures Batches(count) == count / 1024 + if count % 1024 == 0 then 0 else 1
  {
  }

  /** The batches a node still has to be drained of: none if its shard stays. */
  function Load(cr: ValkeyCluster, h: string, n: NodeInfo): nat {
    if Shard(cr, h) >= cr.shards then Batches(n.SlotCount()) else 0
  }

  function Loads(cr: ValkeyCluster, ns: Nodes): map<string, nat> {
    map h | h in ns :: Load(cr, h, ns[h])
  }

  ghost function Work(cr: ValkeyCluster, ns: Nodes): nat {
    SumLoads(Loads(cr, ns))
  }

  lemma OneBatchLess(count: nat)
    requires count > 0
    ensures Batches(count) >= 1 && Batches(count - Batch(count)) == Batches(count) - 1
  {
  }

  lemma WorkDrop(cr: ValkeyCluster, ns: Nodes, i: nat)
    requires forall h | h in ns && IsPod(cr, h) && Shard(cr, h) == i :: ns[h].SlotCount() == 0
    ensures Work(cr, Drop(ns, cr, i, {})) == Work(cr, ns) && Total(Drop(ns, cr, i, {})) == Total(ns)
  {
    hide PodFQDN, PodIndex, CountRanges, SumLoads, Total;
    SumOfSubmap(Loads(cr, Drop(ns, cr, i, {})), Loads(cr, ns));
    EmptyNodesCountNothing(Drop(ns, cr, i, {}), ns);
  }

  lemma WorkMove(cr: ValkeyCluster, ns: Nodes, p: string, to: string)
    requires AllProper(ns) && p in ns && to in ns && Shard(cr, to) < cr.shards <= Shard(cr, p) && ns[p].SlotCount() > 0
    ensures Work(cr, ns) > 0
    ensures Work(cr, SlotsMoved(ns, p, to, Batch(ns[p].SlotCount()))) == Work(cr, ns) - 1
  {
    hide CountRanges, SumLoads, Total, Shard, AllProper, SlotsMoved, Batches, Batch;
    var c := ns[p].SlotCount();
    BatchFits(c);
    MoveShifts(ns, p, to, Batch(c));
    OneBatchLess(c);
    var after := SlotsMoved(ns, p, to, Batch(c));
    var a, b := Loads(cr, ns), Loads(cr, after);
    SumLoadsSplit(a, p);
    SumLoadsSplit(b, p);
    assert a - {p} == b - {p};
  }

  lemma BatchFits(count: nat)
    ensures Batch(count) <= count
  {
  }

  // ---- what every pass keeps ----

  /** The nodes are the pods of the existing shards, and every declared shard has a slot owner. Slots may be missing. */
  ghost predicate Draining(cr: ValkeyCluster, ns: Nodes, shards: set<nat>) {
    InPlace(cr, ns, shards) && FirstOwn(cr, ns, cr.shards)
  }

  /** In the declared shards the primary owns the slots and the others follow it. */
  ghost predicate Tidy(cr: ValkeyCluster, ns: Nodes) {
    forall h | h in ns && Shard(cr, h) < cr.shards :: OwnsDuly(cr, ns, h) && FollowsDuly(cr, ns, h)
  }

  /** Slots only go from departing shards to declared ones, none is lost, and only departing pods go. */
  ghost predicate Shifts(cr: ValkeyCluster, ns: Nodes, after: Nodes) {
    && Total(after) == Total(ns) && (forall h | h in after :: h in ns)
    && (forall h | h in ns && Shard(cr, h) < cr.shards :: h in after && after[h].SlotCount() >= ns[h].SlotCount())
    && (forall h | h in after && Shard(cr, h) >= cr.shards :: after[h].SlotCount() <= ns[h].SlotCount())
  }

  /** What one pass achieves. */
  ghost predicate Progress(cr: ValkeyCluster, ns: Nodes, after: Nodes, left: set<nat>) {
    && Draining(cr, after, left) && Shifts(cr, ns, after) && (Tidy(cr, ns) ==> Tidy(cr, after))
    && (if Work(cr, ns) > 0 then Work(cr, after) == Work(cr, ns) - 1 && Excess(cr, left) else !Excess(cr, left))
  }

  lemma SameSurvivors(cr: ValkeyCluster, ns: Nodes, after: Nodes, i: nat)
    requires i < cr.shards
    requires forall h | Shard(cr, h) < cr.shards :: h in after && after[h].OwnsSlots() <==> h in ns && ns[h].OwnsSlots()
    ensures ShardPrimary(after, cr, i) == ShardPrimary(ns, cr, i)
  {
    hide PodFQDN, PodIndex, NodeInfo.OwnsSlots, ShardPrimary;
    forall j: nat | j <= cr.replicas
      ensures OwnerAt(after, cr, i, j) <==> OwnerAt(ns, cr, i, j)
    {
      assert Shard(cr, PodFQDN(cr, i, j)) == i;
    }
    SamePrimary(after, ns, cr, i);
  }

  /** The declared shards keep their owners and masters. */
  ghost predicate Kept(cr: ValkeyCluster, ns: Nodes, after: Nodes) {
    forall h | Shard(cr, h) < cr.shards ::
      && (h in ns <==> h in after)
      && (h in ns ==> (after[h].OwnsSlots() <==> ns[h].OwnsSlots())
                      && (after[h].masterID == ns[h].masterID || h == PrimaryFor(ns, cr, h)))
  }

  lemma KeptSurvives(cr: ValkeyCluster, ns: Nodes, after: Nodes)
    requires Kept(cr, ns, after) && FirstOwn(cr, ns, cr.shards)
    ensures FirstOwn(cr, after, cr.shards) && (Tidy(cr, ns) ==> Tidy(cr, after))
  {
    hide PodFQDN, PodIndex, NodeInfo.OwnsSlots, ShardPrimary, Shard;
    forall i: nat | i < cr.shards
      ensures ShardPrimary(after, cr, i) == ShardPrimary(ns, cr, i) && Shard(cr, ShardPrimary(ns, cr, i)) == i
    {
      SameSurvivors(cr, ns, after, i);
      PrimaryIs(ns, cr, i);
    }
    if Tidy(cr, ns) {
      forall h | h in after && Shard(cr, h) < cr.shards
        ensures OwnsDuly(cr, after, h) && FollowsDuly(cr, after, h)
      {
        assert OwnsDuly(cr, ns, h) && FollowsDuly(cr, ns, h);
      }
    }
  }

  // ---- one pass ----

  lemma DropKeeps(cr: ValkeyCluster, ns: Nodes, shards: set<nat>, i: nat)
    requires Draining(cr, ns, shards) && i in shards && i >= cr.shards
    requires var p := ShardPrimary(ns, cr, i); !ShowsSlots(ns, p)
    ensures var after := Drop(ns, cr, i, {});
            && Draining(cr, after, shards - {i}) && Shifts(cr, ns, after) && Work(cr, after) == Work(cr, ns)
            && (Tidy(cr, ns) ==> Tidy(cr, after))
  {
    hide PodFQDN, PodIndex, CountRanges, NodeInfo.OwnsSlots, ShardPrimary, Total, InPlace, Work;
    var after := Drop(ns, cr, i, {});
    DropInPlace(cr, ns, shards, i);
    EmptyShard(cr, ns, shards, i);
    WorkDrop(cr, ns, i);
    KeptSurvives(cr, ns, after);
  }

  lemma EmptyShard(cr: ValkeyCluster, ns: Nodes, shards: set<nat>, i: nat)
    requires InPlace(cr, ns, shards)
    requires var p := ShardPrimary(ns, cr, i); !ShowsSlots(ns, p)
    ensures forall h | h in ns && IsPod(cr, h) && Shard(cr, h) == i :: ns[h].SlotCount() == 0
  {
    hide PodFQDN, PodIndex, CountRanges, ShardPrimary, Proper;
    forall h | h in ns && IsPod(cr, h) && Shard(cr, h) == i
      ensures ns[h].SlotCount() == 0
    {
      PrimaryIs(ns, cr, i);
      ProperNode(ns[h]);
      assert h == PodFQDN(cr, i, Ordinal(cr, h));
    }
  }

  lemma MoveKeepsPlace(cr: ValkeyCluster, ns: Nodes, after: Nodes, shards: set<nat>)
    requires InPlace(cr, ns, shards) && after.Keys == ns.Keys && AllProper(after)
    ensures InPlace(cr, after, shards)
  {
    hide PodFQDN, HasPod, AllProper;
  }

  /** One batch leaves a departing primary for a declared one. */
  lemma BatchMoves(cr: ValkeyCluster, ns: Nodes, shards: set<nat>, i: nat)
    requires Draining(cr, ns, shards) && i in shards && i >= cr.shards
    requires ShowsSlots(ns, ShardPrimary(ns, cr, i))
    ensures var p := ShardPrimary(ns, cr, i);
            var after := SlotsMoved(ns, p, SurvivorFrom(ns, cr, p, 0, {}), Batch(ns[p].SlotCount()));
            Work(cr, ns) > 0 && Progress(cr, ns, after, shards)
  {
    hide PodFQDN, PodIndex, CountRanges, NodeInfo.OwnsSlots, ShardPrimary, Total, InPlace, Work, SlotsMoved;
    hide Batch, SurvivorFrom, Shard, Proper;
    var p := ShardPrimary(ns, cr, i);
    var s := ShardPrimary(ns, cr, 0);
    assert AllProper(ns) && cr.shards > 0 by { InPlaceProper(cr, ns, shards); }
    PrimaryIs(ns, cr, i);
    PrimaryIs(ns, cr, 0);
    SurvivorIsFirst(ns, cr, i);
    BatchFits(ns[p].SlotCount());
    WorkMove(cr, ns, p, s);
    MoveShifts(ns, p, s, Batch(ns[p].SlotCount()));
    var after := SlotsMoved(ns, p, s, Batch(ns[p].SlotCount()));
    MoveKeepsPlace(cr, ns, after, shards);
    ProperNode(ns[s]);
    ProperNode(after[s]);
    KeptSurvives(cr, ns, after);
  }

  lemma InPlaceProper(cr: ValkeyCluster, ns: Nodes, shards: set<nat>)
    requires InPlace(cr, ns, shards)
    ensures AllProper(ns) && cr.shards > 0
  {
  }

  lemma ShiftsOn(cr: ValkeyCluster, a: Nodes, b: Nodes, c: Nodes)
    requires Shifts(cr, a, b) && Shifts(cr, b, c)
    ensures Shifts(cr, a, c)
  {
    hide CountRanges, Shard, Total;
  }

  ghost predicate Covering(cr: ValkeyCluster, shards: set<nat>, idxs: seq<nat>) {
    && (forall i | i in shards && i >= cr.shards :: i in idxs) && (forall i | i in idxs :: i in shards)
    && (forall a, b | 0 <= a < b < |idxs| :: idxs[a] != idxs[b])
  }

  lemma CoveringRest(cr: ValkeyCluster, shards: set<nat>, idxs: seq<nat>)
    requires Covering(cr, shards, idxs) && idxs != []
    ensures idxs[0] < cr.shards ==> Covering(cr, shards, idxs[1..])
    ensures idxs[0] >= cr.shards ==> Covering(cr, shards - {idxs[0]}, idxs[1..])
  {
    var rest := idxs[1..];
    assert forall i | i in idxs :: i == idxs[0] || i in rest;
    assert forall i | i in rest :: i in idxs && i != idxs[0];
  }

  /** Every pass either moves one batch or tears down all that is left. */
  lemma {:induction false} PassProgresses(cr: ValkeyCluster, ns: Nodes, shards: set<nat>, idxs: seq<nat>)
    requires Draining(cr, ns, shards) && Covering(cr, shards, idxs)
    ensures var (after, left, err) := PassFrom(cr, ns, shards, idxs, {}); Progress(cr, ns, after, left) && !err
    decreases |idxs|
  {
    hide ShardPrimary, CountRanges, Draining, Work, SlotsMoved, SurvivorFrom, Drop, Covering, Tidy, Shifts;
    hide HeardPrimary, ShowsSlots;
    if idxs == [] {
      NothingLeft(cr, ns, shards);
    } else {
      var i, p := idxs[0], ShardPrimary(ns, cr, idxs[0]);
      CoveringRest(cr, shards, idxs);
      Listed(cr, shards, idxs);
      AllHeard(ns, cr, i);
      ShowsMeans(ns, p);
      if i < cr.shards {
        PassProgresses(cr, ns, shards, idxs[1..]);
      } else if ShowsSlots(ns, p) {
        BatchMoves(cr, ns, shards, i);
        NeedsSurvivor(cr, ns, shards, i);
      } else {
        DropKeeps(cr, ns, shards, i);
        var now := Drop(ns, cr, i, {});
        PassProgresses(cr, now, shards - {i}, idxs[1..]);
        var (after, left, _) := PassFrom(cr, now, shards - {i}, idxs[1..], {});
        ShiftsOn(cr, ns, now, after);
      }
    }
  }

  lemma NeedsSurvivor(cr: ValkeyCluster, ns: Nodes, shards: set<nat>, i: nat)
    requires Draining(cr, ns, shards) && i >= cr.shards
    ensures SurvivorFrom(ns, cr, ShardPrimary(ns, cr, i), 0, {}) != ""
  {
    hide SurvivorFrom, ShardPrimary, FirstOwn, HasPod, PodFQDN, AllProper;
    SurvivorIsFirst(ns, cr, i);
  }

  lemma Listed(cr: ValkeyCluster, shards: set<nat>, idxs: seq<nat>)
    requires Covering(cr, shards, idxs) && idxs != []
    ensures idxs[0] in shards
  {
  }

  lemma NothingLeft(cr: ValkeyCluster, ns: Nodes, shards: set<nat>)
    requires Draining(cr, ns, shards) && Covering(cr, shards, [])
    ensures Progress(cr, ns, ns, shards)
  {
    hide PodFQDN, PodIndex, CountRanges, Total, SumLoads, FirstOwn, Tidy, Batches;
    assert forall h | h in ns :: HasPod(cr, shards, h);
    assert forall h | h in ns :: Loads(cr, ns)[h] == 0;
    var none: map<string, nat> := map[];
    SumOfSubmap(none, Loads(cr, ns));
    EmptySum(none);
  }

  // ---- whole runs ----

  /** The cluster and its workloads after n passes. */
  ghost function After(cr: ValkeyCluster, ns: Nodes, shards: set<nat>, n: nat): (Nodes, set<nat>) {
    if n == 0 then (ns, shards)
    else
      var (now, left) := After(cr, ns, shards, n - 1);
      var (after, rest, _) := PassFrom(cr, now, left, Sorted(left), {});
      (after, rest)
  }

  lemma SortedCovers(cr: ValkeyCluster, shards: set<nat>)
    ensures Covering(cr, shards, Sorted(shards))
  {
    hide Sorted;
  }

  /** A scale-in takes one pass per batch and one more to tear down, neither fewer nor more. At every step in
      between as many slots stay assigned, the declared shards only gain, and the departing ones only lose. */
  lemma {:induction false} ScaleInTakes(cr: ValkeyCluster, ns: Nodes, shards: set<nat>, n: nat)
    requires Draining(cr, ns, shards) && Excess(cr, shards) && n <= Work(cr, ns) + 1
    ensures var (now, left) := After(cr, ns, shards, n);
            && Draining(cr, now, left) && Shifts(cr, ns, now) && (Tidy(cr, ns) ==> Tidy(cr, now))
            && (Excess(cr, left) <==> n <= Work(cr, ns))
            && (n <= Work(cr, ns) ==> Work(cr, now) == Work(cr, ns) - n)
  {
    hide Draining, Work, Tidy, Excess, PassFrom, Sorted, Covering, CountRanges;
    if n > 0 {
      ScaleInTakes(cr, ns, shards, n - 1);
      var (before, held) := After(cr, ns, shards, n - 1);
      SortedCovers(cr, held);
      PassProgresses(cr, before, held, Sorted(held));
      var (now, left) := After(cr, ns, shards, n);
      ShiftsOn(cr, ns, before, now);
    }
  }

  lemma DoneIsConverged(cr: ValkeyCluster, ns: Nodes, shards: set<nat>)
    requires Draining(cr, ns, shards) && Total(ns) == TOTAL_SLOTS && Tidy(cr, ns) && !Excess(cr, shards)
    ensures Converged(cr, ns) && shards == Below(cr.shards)
  {
    BelowIs(cr.shards);
    hide PodFQDN, PodIndex, CountRanges, ShardPrimary, Total, AllProper, FirstOwn, OwnsDuly, FollowsDuly, Below;
    assert forall i: nat | i in shards :: i < cr.shards;
    forall h | h in ns
      ensures Declared(cr, h) && OwnsDuly(cr, ns, h) && FollowsDuly(cr, ns, h)
    {
      assert HasPod(cr, shards, h);
    }
    assert Healthy(cr, ns);
  }

  lemma ConvergedDrains(cr: ValkeyCluster, ns: Nodes, k: nat)
    requires 0 < cr.shards < k && Converged(cr.(shards := k), ns)
    ensures Draining(cr, ns, Below(k)) && Total(ns) == TOTAL_SLOTS && Tidy(cr, ns) && Excess(cr, Below(k))
  {
    var was := cr.(shards := k);
    BelowIs(k);
    SamePods(cr, k);
    hide PodFQDN, PodIndex, CountRanges, ShardPrimary, Total, AllProper, Below, PrimaryFor;
    assert k - 1 in Below(k);
    assert Known(was, ns, k);
    forall h | h in ns
      ensures HasPod(cr, Below(k), h) && OwnsDuly(cr, ns, h) && FollowsDuly(cr, ns, h)
    {
      SameRoles(ns, cr, k, h);
      assert Declared(was, h) && OwnsDuly(was, ns, h) && FollowsDuly(was, ns, h);
    }
    forall i: nat | i < cr.shards
      ensures ShardPrimary(ns, cr, i) in ns && ns[ShardPrimary(ns, cr, i)].OwnsSlots()
    {
      PrimaryIs(ns, cr, i);
      var h := ShardPrimary(ns, cr, i);
      assert h == PodFQDN(cr, i, Ordinal(cr, h));
      OwnPrimary(cr, ns, i);
      assert OwnsDuly(cr, ns, h);
    }
  }

  /** Lowering the shard count of a converged cluster leads to a converged smaller one, after exactly as many
      passes as the departing shards have batches, plus one. */
  lemma ScaleInConverges(cr: ValkeyCluster, ns: Nodes, k: nat)
    requires 0 < cr.shards < k && Converged(cr.(shards := k), ns)
    ensures var work := Work(cr, ns);
            && (forall n: nat | n <= work :: Excess(cr, After(cr, ns, Below(k), n).1))
            && Converged(cr, After(cr, ns, Below(k), work + 1).0)
            && After(cr, ns, Below(k), work + 1).1 == Below(cr.shards)
  {
    hide Converged, Work, After, Below, Draining, Tidy, Excess, Total;
    ConvergedDrains(cr, ns, k);
    var work := Work(cr, ns);
    forall n: nat | n <= work
      ensures Excess(cr, After(cr, ns, Below(k), n).1)
    {
      ScaleInTakes(cr, ns, Below(k), n);
    }
    ScaleInTakes(cr, ns, Below(k), work + 1);
    var (last, left) := After(cr, ns, Below(k), work + 1);
    DoneIsConverged(cr, last, left);
  }
}
