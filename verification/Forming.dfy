/** Bootstrapping a cluster: meet all pods, give each shard's first pod its share, attach the rest. */
module Forming {
  import opened Cluster
  import opened Slots
  import opened Names
  import opened Fake
  import opened Membership
  import opened Scaling

  /** Only declared pods are known, and none of them owns a slot. */
  ghost predicate Unformed(cr: ValkeyCluster, ns: Nodes) {
    AllProper(ns) && Total(ns) == 0 && forall h | h in ns :: Declared(cr, h)
  }

  /** The slots shard i is given. */
  function ShareCount(cr: ValkeyCluster, i: nat): int
    requires cr.shards > 0
  {
    Start(i + 1, cr.shards) - Start(i, cr.shards)
  }

  /** The first k shards have been given their shares. */
  ghost predicate Dealt(cr: ValkeyCluster, ns: Nodes, k: nat)
    requires cr.shards > 0
  {
    && AllProper(ns) && Total(ns) == Start(k, cr.shards) && (forall h | h in ns :: Declared(cr, h))
    && forall h | h in ns ::
         ns[h].SlotCount() == if Ordinal(cr, h) == 0 && Shard(cr, h) < k then ShareCount(cr, Shard(cr, h)) else 0
  }

  lemma UnformedShares(cr: ValkeyCluster, ns: Nodes)
    requires Unformed(cr, ns) && cr.shards > 0
    ensures Dealt(cr, ns, 0)
  {
    hide Total, CountRanges, Proper, Declared;
    forall h | h in ns
      ensures ns[h].SlotCount() == 0
    {
      TotalSplit(ns, h);
      ProperNode(ns[h]);
      TotalPositive(ns - {h});
    }
  }

  lemma MeetShares(cr: ValkeyCluster, ns: Nodes, h: string)
    requires cr.shards > 0 && Dealt(cr, ns, 0) && Declared(cr, h)
    ensures Dealt(cr, Ensure(ns, h), 0)
  {
    hide Total, CountRanges, Proper, Declared, Fresh;
    if h !in ns {
      FreshOwnsNothing(h);
      FreshIs(h);
      TotalUpdate(ns, h, Fresh(h));
    }
  }

  lemma PodIsDeclared(cr: ValkeyCluster, i: nat, j: nat)
    requires i < cr.shards && j <= cr.replicas
    ensures Declared(cr, PodFQDN(cr, i, j)) && Shard(cr, PodFQDN(cr, i, j)) == i && Ordinal(cr, PodFQDN(cr, i, j)) == j
  {
    hide PodFQDN, PodIndex;
  }

  lemma AddProper(ns: Nodes, h: string, r: SlotRange)
    requires AllProper(ns) && r.end - r.start + 1 >= 0
    ensures AllProper(SlotsAdded(ns, h, [r]))
    ensures SlotsAdded(ns, h, [r])[h].SlotCount() == (if h in ns then ns[h].SlotCount() else 0) + (r.end - r.start + 1)
  {
    var was := Ensure(ns, h)[h];
    FreshIs(h);
    FreshOwnsNothing(h);
    ProperNode(was);
    CountRangesAppend(was.slots, r);
    hide CountRanges, Fresh;
  }

  /** Shard k's first pod is given its share. */
  lemma ShareNext(cr: ValkeyCluster, ns: Nodes, k: nat)
    requires k < cr.shards && Dealt(cr, ns, k)
    ensures Dealt(cr, SlotsAdded(ns, PodFQDN(cr, k, 0), [Share(k, cr.shards)]), k + 1)
  {
    hide Total, CountRanges, Proper, PodFQDN, PodIndex, Fresh, IsPod, Start;
    var h := PodFQDN(cr, k, 0);
    var r := Share(k, cr.shards);
    PodIsDeclared(cr, k, 0);
    ShareSize(k, cr.shards);
    SharePositive(cr.shards);
    ShareIs(k, cr.shards);
    AddProper(ns, h, r);
    var after := SlotsAdded(ns, h, [r]);
    assert after == ns[h := after[h]];
    TotalUpdate(ns, h, after[h]);
    forall g | g in after
      ensures Declared(cr, g)
      ensures after[g].SlotCount() ==
              if Ordinal(cr, g) == 0 && Shard(cr, g) < k + 1 then ShareCount(cr, Shard(cr, g)) else 0
    {
      if g != h {
        assert Declared(cr, g);
        OnlyPod(cr, g, k);
      }
    }
  }

  lemma OnlyPod(cr: ValkeyCluster, g: string, k: nat)
    requires Declared(cr, g) && g != PodFQDN(cr, k, 0)
    ensures !(Ordinal(cr, g) == 0 && Shard(cr, g) == k)
  {
    hide PodFQDN, PodIndex;
  }

  lemma ShareIs(k: nat, n: nat)
    requires n > 0
    ensures Share(k, n).end - Share(k, n).start + 1 == Start(k + 1, n) - Start(k, n)
  {
  }

  lemma SharePositive(n: nat)
    requires n > 0
    ensures TOTAL_SLOTS / n >= 0
  {
  }

  /** With every share handed out, the first pod of every shard is its only slot owner. */
  lemma SharedIsHealthy(cr: ValkeyCluster, ns: Nodes)
    requires 0 < cr.shards <= TOTAL_SLOTS && Dealt(cr, ns, cr.shards) && Known(cr, ns, cr.shards)
    ensures Healthy(cr, ns)
  {
    hide Total, CountRanges, Proper, PodFQDN, PodIndex, Start, NodeInfo.OwnsSlots, ShardPrimary;
    StartOfAll(cr.shards);
    forall h | h in ns
      ensures ns[h].OwnsSlots() <==> Ordinal(cr, h) == 0
    {
      ProperNode(ns[h]);
      assert Declared(cr, h);
      ShareSize(Shard(cr, h), cr.shards);
      ShareIsPositive(cr.shards);
    }
    forall h | h in ns
      ensures OwnsDuly(cr, ns, h)
    {
      assert Declared(cr, h);
      FirstPodIsPrimary(cr, ns, Shard(cr, h));
    }
  }

  lemma FirstPodIsPrimary(cr: ValkeyCluster, ns: Nodes, i: nat)
    requires forall h | h in ns :: ns[h].OwnsSlots() <==> Ordinal(cr, h) == 0
    ensures ShardPrimary(ns, cr, i) == PodFQDN(cr, i, 0)
  {
    hide PodFQDN, PodIndex, NodeInfo.OwnsSlots, ShardPrimary;
    forall j: nat | 0 < j <= cr.replicas
      ensures !OwnerAt(ns, cr, i, j)
    {
      assert Ordinal(cr, PodFQDN(cr, i, j)) == j;
    }
    NoOwner(ns, cr, i);
  }

  /** Introduce every declared pod but the seed to the seed. */
  method MeetAll(f: FakeCluster, cr: ValkeyCluster)
    requires AllProper(f.nodes)
    modifies f
    ensures AllProper(f.nodes)
    ensures cr.shards > 0 && Dealt(cr, old(f.nodes), 0) ==>
              Dealt(cr, f.nodes, 0) && Known(cr, Ensure(f.nodes, PodFQDN(cr, 0, 0)), cr.shards)
    ensures AllUp(old(f.nodes)) ==> AllUp(f.nodes)
  {
    hide PodFQDN, PodIndex, Proper, Dealt, Declared, Fresh, AllUp;
    var seed := PodFQDN(cr, 0, 0);
    ghost var fine := cr.shards > 0 && Dealt(cr, f.nodes, 0);
    for i := 0 to cr.shards
      invariant AllProper(f.nodes) && (fine ==> Dealt(cr, f.nodes, 0)) && (AllUp(old(f.nodes)) ==> AllUp(f.nodes))
      invariant forall a: nat, b: nat | a < i && b <= cr.replicas :: PodFQDN(cr, a, b) in Ensure(f.nodes, seed)
    {
      for j := 0 to cr.replicas + 1
        invariant AllProper(f.nodes) && (fine ==> Dealt(cr, f.nodes, 0)) && (AllUp(old(f.nodes)) ==> AllUp(f.nodes))
        invariant forall a: nat, b: nat | a < i && b <= cr.replicas :: PodFQDN(cr, a, b) in Ensure(f.nodes, seed)
        invariant forall b: nat | b < j :: PodFQDN(cr, i, b) in Ensure(f.nodes, seed)
      {
        var h := PodFQDN(cr, i, j);
        if h == seed {
          continue;
        }
        PodIsDeclared(cr, 0, 0);
        PodIsDeclared(cr, i, j);
        if fine {
          MeetShares(cr, f.nodes, seed);
          MeetShares(cr, Ensure(f.nodes, seed), h);
        }
        if AllUp(f.nodes) {
          StaysUp(f.nodes, h, seed, [], 0);
        }
        f.Meet(seed, h);
      }
    }
  }

  /** Bootstrap the cluster. From any state in which no slot is assigned, for every shard count up to the number of
      slots and every replica count, this converges in one go; from any other, at least every declared pod ends up
      wired to its shard's primary. */
  method FormCluster(f: FakeCluster, cr: ValkeyCluster)
    requires AllProper(f.nodes)
    modifies f
    ensures AllProper(f.nodes) && AllFollow(cr, f.nodes)
    ensures Unformed(cr, old(f.nodes)) && 0 < cr.shards <= TOTAL_SLOTS ==> Converged(cr, f.nodes)
    ensures AllUp(old(f.nodes)) ==> AllUp(f.nodes)
  {
    hide *;
    ghost var fine := Unformed(cr, f.nodes) && 0 < cr.shards <= TOTAL_SLOTS;
    if fine {
      UnformedShares(cr, f.nodes);
    }
    MeetAll(f, cr);
    ghost var seed := PodFQDN(cr, 0, 0);
    var dist := Distribute(cr.shards);
    SplitLength(dist, cr.shards);
    for i := 0 to cr.shards
      invariant AllProper(f.nodes) && (AllUp(old(f.nodes)) ==> AllUp(f.nodes))
      invariant fine ==> Dealt(cr, f.nodes, i) && Known(cr, Ensure(f.nodes, seed), cr.shards)
      invariant fine && i > 0 ==> seed in f.nodes
    {
      ghost var now := f.nodes;
      var h := PodFQDN(cr, i, 0);
      ShareSize(i, cr.shards);
      SharePositive(cr.shards);
      ShareIs(i, cr.shards);
      AddProper(now, h, dist[i]);
      if fine {
        ShareNext(cr, now, i);
        AddKnows(cr, now, h, [dist[i]], seed);
      }
      if AllUp(now) {
        StaysUp(now, h, seed, [dist[i]], 0);
      }
      f.AddSlots(h, [dist[i]]);
    }
    var st := f.State();
    ObservedList(st, f.nodes);
    var idx := IndexByID(st.nodes, f.nodes);
    ghost var added := f.nodes;
    if fine {
      Settle(cr, added, seed);
    }
    ghost var met := AttachReplicas(f, cr, idx);
    if AllUp(added) {
      AttachUp(cr, added, met, idx);
    }
  }

  /** A new cluster: nothing is known, and then everything is in place. */
  method FormFresh(cr: ValkeyCluster) returns (f: FakeCluster)
    requires 0 < cr.shards <= TOTAL_SLOTS
    ensures fresh(f) && Converged(cr, f.nodes) && AllUp(f.nodes)
  {
    hide Total, Converged;
    f := new FakeCluster();
    EmptyTotal();
    assert Unformed(cr, f.nodes);
    FormCluster(f, cr);
  }

  lemma SplitLength(dist: seq<SlotRange>, n: nat)
    requires n > 0 ==> EvenSplit(dist, n)
    ensures n > 0 ==> |dist| == n
  {
  }

  lemma AddKnows(cr: ValkeyCluster, ns: Nodes, h: string, rs: seq<SlotRange>, seed: string)
    requires Known(cr, Ensure(ns, seed), cr.shards)
    ensures Known(cr, Ensure(SlotsAdded(ns, h, rs), seed), cr.shards)
    ensures h in SlotsAdded(ns, h, rs) && (seed in ns ==> seed in SlotsAdded(ns, h, rs))
  {
    hide PodFQDN, Fresh;
  }

  lemma Settle(cr: ValkeyCluster, ns: Nodes, seed: string)
    requires 0 < cr.shards <= TOTAL_SLOTS && Dealt(cr, ns, cr.shards) && Known(cr, Ensure(ns, seed), cr.shards)
    requires seed in ns
    ensures Known(cr, ns, cr.shards) && Converged(cr, Attach(ns, ns, cr))
  {
    hide Dealt, Converged, Attach, Fresh, Healthy, PodFQDN;
    SharedIsHealthy(cr, ns);
    AttachConverges(cr, ns);
  }
}
