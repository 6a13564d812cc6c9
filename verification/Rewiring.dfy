/** When keeping membership aligned converges: replicas added or removed, pods rejoined, stale nodes swept. */
module Rewiring {
  import opened Wrappers
  import opened Cluster
  import opened Names
  import opened Fake
  import opened Membership
  import opened Status
  import opened Planning
  import opened Scaling

  // ---- totals ----

  /** The nodes with slots. */
  function Owning(ns: Nodes): Nodes {
    map h | h in ns && ns[h].SlotCount() > 0 :: ns[h]
  }

  lemma OwningTotal(ns: Nodes)
    requires AllProper(ns)
    ensures Total(Owning(ns)) == Total(ns)
  {
    hide Total, CountRanges, Proper;
    CountsArePositive(ns);
    EmptyNodesCountNothing(Owning(ns), ns);
  }

  /** Only slot owners matter for the total. */
  lemma SameOwnersTotal(a: Nodes, b: Nodes)
    requires AllProper(a) && AllProper(b)
    requires forall h :: h in Owning(a) <==> h in Owning(b)
    requires forall h | h in Owning(a) && h in Owning(b) :: a[h].SlotCount() == b[h].SlotCount()
    ensures Total(a) == Total(b)
  {
    hide Total, CountRanges, AllProper;
    OwningTotal(a);
    OwningTotal(b);
    assert Owning(a).Keys == Owning(b).Keys;
    SameTotal(Owning(a), Owning(b));
  }

  // ---- one node ----

  /** A node before and after: it owns slots afterwards exactly if it did and was not told to follow somebody. */
  lemma RewiredNode(cr: ValkeyCluster, shards: set<nat>, ns: Nodes, after: Nodes, h: string)
    requires AllProper(ns) && Rewired(cr, shards, ns, after) && h in after
    ensures after[h].id == h && after[h].host == h && Proper(after[h])
    ensures after[h].OwnsSlots() ==> h in ns && ns[h].OwnsSlots() && after[h] == ns[h]
    ensures h in ns && ns[h].OwnsSlots() && h == PrimaryFor(ns, cr, h) ==> after[h] == ns[h]
    ensures Declared(cr, h) ==> h == PrimaryFor(ns, cr, h) || after[h].masterID == PrimaryFor(ns, cr, h)
  {
    var n := if h in ns then ns[h] else Fresh(h);
    FreshIs(h);
    FreshOwnsNothing(h);
    NotEmpty(ns, cr, Shard(cr, h));
    ReplicaOwnsNothing(n, PrimaryFor(ns, cr, h));
    hide PodFQDN, PodIndex, CountRanges, Proper, Fresh, ShardPrimary, IsPod, Shard, NodeInfo.OwnsSlots;
  }

  lemma RewiredKnows(cr: ValkeyCluster, shards: set<nat>, ns: Nodes, after: Nodes)
    requires Rewired(cr, shards, ns, after) && shards == Below(cr.shards)
    ensures Known(cr, after, cr.shards) && forall h :: h in after <==> Declared(cr, h)
  {
    BelowIs(cr.shards);
    hide PodFQDN, PodIndex, Fresh, Unattached, PrimaryFor, Below;
    forall i: nat, j: nat | i < cr.shards && j <= cr.replicas
      ensures PodFQDN(cr, i, j) in after
    {
      var h := PodFQDN(cr, i, j);
      assert Shard(cr, h) == i && Ordinal(cr, h) == j;
      assert Declared(cr, h);
    }
  }

  // ---- converging ----

  lemma RewiredOwner(cr: ValkeyCluster, ns: Nodes, after: Nodes, h: string)
    requires AllProper(ns) && Rewired(cr, Below(cr.shards), ns, after)
    requires h in ns ==> OwnsBelow(cr, ns, h, cr.shards)
    ensures h in after && after[h].OwnsSlots() <==> h in ns && ns[h].OwnsSlots()
    ensures h in ns && ns[h].OwnsSlots() ==> h in after && after[h] == ns[h]
  {
    hide PodFQDN, PodIndex, Proper, ShardPrimary, NodeInfo.OwnsSlots, Rewired, AllProper;
    RewiredKnows(cr, Below(cr.shards), ns, after);
    if h in ns && ns[h].OwnsSlots() {
      PrimaryIs(ns, cr, Shard(cr, h));
    }
    if h in after {
      RewiredNode(cr, Below(cr.shards), ns, after, h);
    }
  }

  lemma RewiredSamePrimary(cr: ValkeyCluster, ns: Nodes, after: Nodes, i: nat)
    requires AllProper(ns) && Rewired(cr, Below(cr.shards), ns, after)
    requires forall h | h in ns :: OwnsBelow(cr, ns, h, cr.shards)
    ensures ShardPrimary(after, cr, i) == ShardPrimary(ns, cr, i)
  {
    hide PodFQDN, PodIndex, AllProper, ShardPrimary, NodeInfo.OwnsSlots, Rewired, OwnsBelow;
    forall j: nat | j <= cr.replicas
      ensures OwnerAt(after, cr, i, j) <==> OwnerAt(ns, cr, i, j)
    {
      RewiredOwner(cr, ns, after, PodFQDN(cr, i, j));
    }
    SamePrimary(after, ns, cr, i);
  }

  lemma RewiredProper(cr: ValkeyCluster, ns: Nodes, after: Nodes)
    requires AllProper(ns) && Rewired(cr, Below(cr.shards), ns, after)
    ensures AllProper(after)
  {
    hide Rewired, AllProper, Proper;
    forall h | h in after
      ensures after[h].id == h && after[h].host == h && Proper(after[h])
    {
      RewiredNode(cr, Below(cr.shards), ns, after, h);
    }
    AllProperIf(after);
  }

  lemma RewiredTotal(cr: ValkeyCluster, ns: Nodes, after: Nodes)
    requires AllProper(ns) && Rewired(cr, Below(cr.shards), ns, after)
    requires forall h | h in ns :: OwnsBelow(cr, ns, h, cr.shards)
    ensures Total(after) == Total(ns)
  {
    hide AllProper, NodeInfo.OwnsSlots, Rewired, OwnsBelow, Total, Proper, CountRanges;
    RewiredProper(cr, ns, after);
    forall h
      ensures h in Owning(after) <==> h in Owning(ns)
      ensures h in Owning(after) && h in Owning(ns) ==> after[h].SlotCount() == ns[h].SlotCount()
    {
      RewiredOwner(cr, ns, after, h);
      OwningIs(ns, h);
      OwningIs(after, h);
    }
    SameOwnersTotal(after, ns);
  }

  lemma OwningIs(ns: Nodes, h: string)
    requires AllProper(ns)
    ensures h in Owning(ns) <==> h in ns && ns[h].OwnsSlots()
  {
    hide CountRanges, Proper, NodeInfo.OwnsSlots;
    if h in ns {
      ProperNode(ns[h]);
    }
  }

  lemma RewiredConverges(cr: ValkeyCluster, ns: Nodes, after: Nodes)
    requires AllProper(ns) && Total(ns) == TOTAL_SLOTS && |OwnersOf(ns)| == cr.shards && FirstOwn(cr, ns, cr.shards)
    requires Rewired(cr, Below(cr.shards), ns, after)
    ensures Converged(cr, after)
  {
    hide *;
    OwnersExact(cr, ns, cr.shards);
    RewiredProper(cr, ns, after);
    RewiredTotal(cr, ns, after);
    RewiredKnows(cr, Below(cr.shards), ns, after);
    forall h | h in after
      ensures OwnsDuly(cr, after, h) && FollowsDuly(cr, after, h)
    {
      RewiredDuly(cr, ns, after, h);
    }
    ConvergedFrom(cr, after);
  }

  lemma RewiredDuly(cr: ValkeyCluster, ns: Nodes, after: Nodes, h: string)
    requires AllProper(ns) && Rewired(cr, Below(cr.shards), ns, after)
    requires forall h | h in ns :: OwnsBelow(cr, ns, h, cr.shards)
    requires FirstOwn(cr, ns, cr.shards) && h in after
    ensures OwnsDuly(cr, after, h) && FollowsDuly(cr, after, h)
  {
    hide PodFQDN, PodIndex, AllProper, ShardPrimary, NodeInfo.OwnsSlots, Rewired, Below;
    RewiredKnows(cr, Below(cr.shards), ns, after);
    RewiredSamePrimary(cr, ns, after, Shard(cr, h));
    RewiredNode(cr, Below(cr.shards), ns, after, h);
    RewiredOwner(cr, ns, after, h);
  }

  lemma ConvergedFrom(cr: ValkeyCluster, ns: Nodes)
    requires AllProper(ns) && Total(ns) == TOTAL_SLOTS && Known(cr, ns, cr.shards)
    requires forall h :: h in ns <==> Declared(cr, h)
    requires forall h | h in ns :: OwnsDuly(cr, ns, h) && FollowsDuly(cr, ns, h)
    ensures Converged(cr, ns)
  {
    hide AllProper, Total, Known, Declared, OwnsDuly, FollowsDuly;
    assert Healthy(cr, ns);
  }

  /** With all slots on as many owners as there are shards, keeping membership aligned converges if and only if
      every shard has an owner among its declared ordinals. */
  lemma RewiredConvergesIff(cr: ValkeyCluster, ns: Nodes, after: Nodes)
    requires AllProper(ns) && Total(ns) == TOTAL_SLOTS && |OwnersOf(ns)| == cr.shards
    requires Rewired(cr, Below(cr.shards), ns, after)
    ensures Converged(cr, after) <==> FirstOwn(cr, ns, cr.shards)
  {
    hide *;
    if FirstOwn(cr, ns, cr.shards) {
      RewiredConverges(cr, ns, after);
    }
    if Converged(cr, after) {
      forall h | h in after && after[h].OwnsSlots()
        ensures h in ns && ns[h].OwnsSlots()
      {
        RewiredNode(cr, Below(cr.shards), ns, after, h);
      }
      OwnedEarlier(cr, ns, after);
    }
  }

  lemma OwnedEarlier(cr: ValkeyCluster, ns: Nodes, after: Nodes)
    requires Converged(cr, after) && forall h | h in after && after[h].OwnsSlots() :: h in ns && ns[h].OwnsSlots()
    ensures FirstOwn(cr, ns, cr.shards)
  {
    hide PodFQDN, PodIndex, CountRanges, ShardPrimary, Total, NodeInfo.OwnsSlots, Healthy, FollowsDuly;
    ConvergedHealthy(cr, after);
    forall i: nat | i < cr.shards
      ensures ShardPrimary(ns, cr, i) in ns && ns[ShardPrimary(ns, cr, i)].OwnsSlots()
    {
      var p := ShardPrimary(after, cr, i);
      PrimaryIs(after, cr, i);
      OwnPrimary(cr, after, i);
      HealthyOwner(cr, after, p);
      PrimaryIs(ns, cr, i);
      assert p == PodFQDN(cr, i, Ordinal(cr, p));
    }
  }

  // ---- changing the replica count ----

  lemma SameNames(cr: ValkeyCluster, r: nat)
    ensures forall i: nat, j: nat :: PodFQDN(cr.(replicas := r), i, j) == PodFQDN(cr, i, j)
    ensures forall h :: PodIndex(cr.(replicas := r), h) == PodIndex(cr, h)
  {
    hide ReadPair;
  }

  /** After the replica count of a healthy cluster changes, keeping membership aligned converges if and only if no
      slot owner has an ordinal beyond the new count. */
  lemma ReplicaChange(cr: ValkeyCluster, ns: Nodes, r: nat)
    requires Healthy(cr.(replicas := r), ns)
    ensures FirstOwn(cr, ns, cr.shards) <==> forall h | h in ns && ns[h].OwnsSlots() :: Ordinal(cr, h) <= cr.replicas
  {
    var was := cr.(replicas := r);
    SameNames(cr, r);
    hide PodFQDN, PodIndex, CountRanges, ShardPrimary, Total, NodeInfo.OwnsSlots, AllProper, FirstOwner;
    hide Healthy, PrimaryFor;
    if FirstOwn(cr, ns, cr.shards) {
      forall h | h in ns && ns[h].OwnsSlots()
        ensures Ordinal(cr, h) <= cr.replicas
      {
        HealthyOwner(was, ns, h);
        var p := ShardPrimary(ns, cr, Shard(cr, h));
        PrimaryIs(ns, cr, Shard(cr, h));
        HealthyOwner(was, ns, p);
        SameShard(was, ns, h, p);
      }
    }
    if forall h | h in ns && ns[h].OwnsSlots() :: Ordinal(cr, h) <= cr.replicas {
      forall i: nat | i < cr.shards
        ensures ShardPrimary(ns, cr, i) in ns && ns[ShardPrimary(ns, cr, i)].OwnsSlots()
      {
        var p := ShardPrimary(ns, was, i);
        PrimaryIs(ns, was, i);
        OwnPrimary(was, ns, i);
        HealthyOwner(was, ns, p);
        assert p == PodFQDN(cr, i, Ordinal(cr, p));
        PrimaryIs(ns, cr, i);
      }
    }
  }

  lemma SameShard(cr: ValkeyCluster, ns: Nodes, h: string, p: string)
    requires h == PrimaryFor(ns, cr, h) && p == PrimaryFor(ns, cr, p) && Shard(cr, h) == Shard(cr, p)
    ensures h == p
  {
    hide ShardPrimary, Shard;
  }

  /** A healthy shard whose primary is ordinal 1 while the replica count drops to 0: the condition fails. */
  lemma OwnerBeyondReplicas()
    ensures var cr := ValkeyCluster("vc", "default", 1, 0);
            var a, b := PodFQDN(cr, 0, 0), PodFQDN(cr, 0, 1);
            var ns := map[a := AsReplica(Fresh(a), b), b := Full(b)];
            Healthy(cr.(replicas := 1), ns) && !FirstOwn(cr, ns, 1)
  {
    hide PodFQDN, PodIndex, Fresh, Full, CountRanges, Total, NodeInfo.OwnsSlots, FirstOwner, Proper, AsReplica;
    var cr := ValkeyCluster("vc", "default", 1, 0);
    var was := cr.(replicas := 1);
    var a, b := PodFQDN(cr, 0, 0), PodFQDN(cr, 0, 1);
    var ns := map[a := AsReplica(Fresh(a), b), b := Full(b)];
    SameNames(cr, 1);
    assert Shard(cr, a) == 0 && Ordinal(cr, a) == 0 && Shard(cr, b) == 0 && Ordinal(cr, b) == 1 && a != b;
    FreshIs(a);
    ReplicaIs(Fresh(a), b);
    ReplicaOwnsNothing(Fresh(a), b);
    FullOwns(b);
    EmptyTotal();
    TotalUpdate(map[], a, AsReplica(Fresh(a), b));
    TotalUpdate(map[a := AsReplica(Fresh(a), b)], b, Full(b));
    assert ns == map[a := AsReplica(Fresh(a), b)][b := Full(b)];
    OneOrTwo(was, ns, a, b);
    PrimaryIs(ns, cr, 0);
    assert ShardPrimary(ns, cr, 0) == a;
  }

  lemma ReplicaIs(n: NodeInfo, p: string)
    ensures AsReplica(n, p).id == n.id && AsReplica(n, p).host == n.host
  {
  }

  lemma OneOrTwo(cr: ValkeyCluster, ns: Nodes, a: string, b: string)
    requires cr.shards == 1 && cr.replicas == 1 && a == PodFQDN(cr, 0, 0) && b == PodFQDN(cr, 0, 1) && a != b
    requires ns.Keys == {a, b} && AllProper(ns) && Total(ns) == TOTAL_SLOTS && !ns[a].OwnsSlots() && ns[b].OwnsSlots()
    ensures Healthy(cr, ns)
  {
    hide PodFQDN, PodIndex, CountRanges, Total, NodeInfo.OwnsSlots, FirstOwner, AllProper;
    assert Shard(cr, a) == 0 && Ordinal(cr, a) == 0 && Shard(cr, b) == 0 && Ordinal(cr, b) == 1;
    forall i: nat, j: nat | i < 1 && j <= 1
      ensures PodFQDN(cr, i, j) in ns
    {
      assert i == 0 && (j == 0 || j == 1);
    }
    assert Declared(cr, a) && Declared(cr, b);
    FirstOwnerIs(ns, cr, 0, 0);
    assert OwnerAt(ns, cr, 0, 1);
    assert FirstOwner(ns, cr, 0, 0) == Some(1);
    assert ShardPrimary(ns, cr, 0) == b;
  }
}
