/** One reconcile pass: observe, decide, act, publish the status. */
module Reconcile {
  import opened Wrappers
  import opened Cluster
  import opened Names
  import opened Fake
  import opened Membership
  import opened Status
  import opened Planning
  import opened Scaling
  import opened Forming
  import opened Teardown
  import opened Departure
  import opened Rewiring
  import opened Reports
  import Topology

  // ---- what the planner says ----

  lemma UnformedNeedsForming(cr: ValkeyCluster, ns: Nodes, st: ClusterState)
    requires Unformed(cr, ns) && Observes(st, ns)
    ensures Topology.Decide(DesiredOf(cr), Summary(st)).Form?
  {
    hide Total, Lists, CountOwners, OwnerReplicas, AllProper, Declared;
  }

  lemma GrowableNeedsShards(cr: ValkeyCluster, ns: Nodes, st: ClusterState, k: nat)
    requires k < cr.shards && Growable(cr, ns, k) && Observes(st, ns)
    ensures Topology.Decide(DesiredOf(cr), Summary(st)).ScaleOutShards? && Summary(st).primaryCount == k
  {
    hide Total, Lists, CountOwners, OwnerReplicas, OwnersOf, AllProper, Known, Declared;
    OwnersCountedOnce(ns, st.nodes);
    OwnerReplicasCounted(st.nodes, st.nodes);
  }

  lemma OwnersCountedOnce(ns: Nodes, nodes: seq<NodeInfo>)
    requires Lists(nodes, ns)
    ensures CountOwners(nodes) == |OwnersOf(ns)|
  {
    hide Lists, CountOwners, NodeInfo.OwnsSlots, OwnerIds;
    forall h
      ensures h in OwnerIds(nodes) <==> h in OwnersOf(ns)
    {
      OwnerIdsOf(nodes, ns, h);
    }
    assert OwnerIds(nodes) == OwnersOf(ns);
    ListedOnce(nodes, ns);
    OwnerIdsCounted(nodes);
  }

  /** All slots are assigned, to as many nodes as shards are declared. */
  ghost predicate Staffed(cr: ValkeyCluster, ns: Nodes) {
    Total(ns) == TOTAL_SLOTS && |OwnersOf(ns)| == cr.shards > 0
  }

  lemma StaffedNeedsNoReshape(cr: ValkeyCluster, ns: Nodes, st: ClusterState)
    requires Staffed(cr, ns) && Observes(st, ns)
    ensures var plan := Topology.Decide(DesiredOf(cr), Summary(st)); plan.NoAction? || plan.ScaleReplicas?
  {
    hide Total, Lists, CountOwners, OwnerReplicas, OwnersOf;
    OwnersCountedOnce(ns, st.nodes);
    OwnerReplicasCounted(st.nodes, st.nodes);
  }

  lemma HealthyStaffed(cr: ValkeyCluster, ns: Nodes)
    requires Healthy(cr, ns)
    ensures Staffed(cr, ns) && FirstOwn(cr, ns, cr.shards) && Placed(cr, ns)
  {
    hide Total, OwnersOf, FirstOwn, AllProper, Known, OwnsDuly, Declared;
    assert cr.(shards := cr.shards) == cr;
    HealthyGrows(cr, ns, cr.shards);
    SomeShard(cr, ns);
  }

  lemma SomeShard(cr: ValkeyCluster, ns: Nodes)
    requires Total(ns) > 0 && forall h | h in ns :: Declared(cr, h)
    ensures cr.shards > 0
  {
    hide PodFQDN, PodIndex, IsPod;
    if h :| h in ns {
      assert Declared(cr, h);
    }
  }

  /** Slots are assigned, and not all of them to too few owners: neither forming nor growing is called for. */
  ghost predicate Established(cr: ValkeyCluster, ns: Nodes) {
    0 < Total(ns) && (Total(ns) != TOTAL_SLOTS || |OwnersOf(ns)| >= cr.shards)
  }

  lemma EstablishedNeedsNoShards(cr: ValkeyCluster, ns: Nodes, st: ClusterState)
    requires Established(cr, ns) && Observes(st, ns)
    ensures var plan := Topology.Decide(DesiredOf(cr), Summary(st)); !plan.Form? && !plan.ScaleOutShards?
  {
    hide Total, Lists, CountOwners, OwnerReplicas, OwnersOf;
    OwnersCountedOnce(ns, st.nodes);
    OwnerReplicasCounted(st.nodes, st.nodes);
  }

  /** A cluster on its way to fewer shards is one the pass drains. */
  lemma DrainingIsEstablished(cr: ValkeyCluster, ns: Nodes, shards: set<nat>)
    requires Draining(cr, ns, shards)
    ensures Established(cr, ns) && InPlace(cr, ns, shards) && Swept(cr, ns, shards) == ns
  {
    hide Total, NodeInfo.OwnsSlots, ShardPrimary, Shard, HasPod, PodFQDN, AllProper;
    SomebodyOwns(ns, ShardPrimary(ns, cr, 0));
    forall h | h in PrimaryHosts(ns, cr, cr.shards)
      ensures h in OwnersOf(ns)
    {
      InPrimaryHosts(ns, cr, cr.shards, h);
      PrimaryForIs(cr, ns, h);
    }
    PrimaryHostsCounted(ns, cr, cr.shards);
    SubsetSize(PrimaryHosts(ns, cr, cr.shards), OwnersOf(ns));
    SweptInPlace(cr, ns, shards);
  }

  lemma SomebodyOwns(ns: Nodes, h: string)
    requires AllProper(ns) && h in ns && ns[h].OwnsSlots()
    ensures Total(ns) > 0
  {
    hide Total, CountRanges, Proper;
    TotalSplit(ns, h);
    ProperNode(ns[h]);
    TotalPositive(ns - {h});
  }

  lemma PartialNeedsRepair(cr: ValkeyCluster, ns: Nodes, st: ClusterState)
    requires 0 < Total(ns) != TOTAL_SLOTS && Observes(st, ns)
    ensures Topology.Decide(DesiredOf(cr), Summary(st)).Repair?
  {
    hide Total, Lists, CountOwners, OwnerReplicas;
  }

  /** What the planner says of each kind of cluster. */
  lemma Plans(cr: ValkeyCluster, ns: Nodes, st: ClusterState, k: nat)
    requires Observes(st, ns)
    ensures var plan := Topology.Decide(DesiredOf(cr), Summary(st));
            && (Unformed(cr, ns) ==> plan.Form?)
            && (Staffed(cr, ns) ==> plan.NoAction? || plan.ScaleReplicas?)
            && (k < cr.shards && Growable(cr, ns, k) ==> plan.ScaleOutShards? && Summary(st).primaryCount == k)
            && (Established(cr, ns) ==> !plan.Form? && !plan.ScaleOutShards?)
            && (0 < Total(ns) ==> !plan.Form?)
            && (0 < Total(ns) != TOTAL_SLOTS ==> plan.Repair?)
            && (plan.ScaleOutShards? ==> 0 <= Summary(st).primaryCount < cr.shards)
  {
    hide Topology.Decide, Summary, DesiredOf, Observes, Unformed, Total, FirstOwn, Growable, OwnersOf;
    if Unformed(cr, ns) {
      UnformedNeedsForming(cr, ns, st);
    }
    if Staffed(cr, ns) {
      StaffedNeedsNoReshape(cr, ns, st);
    }
    if k < cr.shards && Growable(cr, ns, k) {
      GrowableNeedsShards(cr, ns, st, k);
    }
    if Established(cr, ns) {
      EstablishedNeedsNoShards(cr, ns, st);
    }
    if 0 < Total(ns) {
      FormedNeedsNoForming(cr, ns, st);
    }
    if 0 < Total(ns) != TOTAL_SLOTS {
      PartialNeedsRepair(cr, ns, st);
    }
    GrowsIfFewer(cr, st);
  }

  /** The nodes that replicate `p`. */
  function ReplicasIn(ns: Nodes, p: string): set<string> {
    set h | h in ns && ReplicaOf(ns[h], p)
  }

  lemma ReplicasSeen(ns: Nodes, nodes: seq<NodeInfo>, p: string)
    requires Lists(nodes, ns)
    ensures ReplicasOf(nodes, p) == |ReplicasIn(ns, p)|
  {
    hide Lists, ReplicaOf, ReplicaIds, ReplicasOf;
    forall h
      ensures h in ReplicaIds(nodes, p) <==> h in ReplicasIn(ns, p)
    {
      ReplicaIdsOf(nodes, ns, p, h);
    }
    assert ReplicaIds(nodes, p) == ReplicasIn(ns, p);
    ListedOnce(nodes, ns);
    ReplicaIdsCounted(nodes, p);
  }

  /** Some slot owner has more or fewer replicas than declared. */
  ghost predicate WrongReplicas(cr: ValkeyCluster, ns: Nodes) {
    exists h :: h in OwnersOf(ns) && |ReplicasIn(ns, h)| != cr.replicas
  }

  lemma ReplicasCounted(ns: Nodes, nodes: seq<NodeInfo>, p: string)
    requires Lists(nodes, ns)
    ensures |ReplicasAt(nodes, p)| == |ReplicasIn(ns, p)|
  {
    hide Lists, ReplicasAt, ReplicasIn;
    ReplicasSeen(ns, nodes, p);
    ReplicaCount(nodes, p);
  }

  lemma WrongSeen(cr: ValkeyCluster, ns: Nodes, nodes: seq<NodeInfo>)
    requires Lists(nodes, ns)
    ensures (exists k :: 0 <= k < |OwnerReplicas(nodes, nodes)| && OwnerReplicas(nodes, nodes)[k] != cr.replicas) <==>
            WrongReplicas(cr, ns)
  {
    hide NodeInfo.OwnsSlots, OwnerReplicas, ReplicasIn, ReplicasAt, Lists;
    var counts := OwnerReplicas(nodes, nodes);
    var at := OwnerReplicasAre(nodes, nodes);
    if k :| 0 <= k < |counts| && counts[k] != cr.replicas {
      var h := nodes[at[k]].id;
      assert at[k] in at;
      ReplicasCounted(ns, nodes, h);
      ListedIsThere(nodes, ns, at[k]);
      assert h in OwnersOf(ns);
    }
    if h :| h in OwnersOf(ns) && |ReplicasIn(ns, h)| != cr.replicas {
      var e := PositionOf(nodes, ns, h);
      assert e in at;
      var k :| 0 <= k < |at| && at[k] == e;
      ReplicasCounted(ns, nodes, h);
      assert counts[k] != cr.replicas;
    }
  }

  lemma ListedIsThere(nodes: seq<NodeInfo>, ns: Nodes, e: int)
    requires Lists(nodes, ns) && 0 <= e < |nodes|
    ensures nodes[e].id in ns && ns[nodes[e].id] == nodes[e]
  {
  }

  lemma PositionOf(nodes: seq<NodeInfo>, ns: Nodes, h: string) returns (e: int)
    requires Lists(nodes, ns) && h in ns
    ensures 0 <= e < |nodes| && nodes[e].id == h && nodes[e] == ns[h]
  {
    ListedNode(nodes, ns, h);
    e :| 0 <= e < |nodes| && nodes[e].id == h;
  }

  /** The plan and its numbers, from the cluster alone: form it if no slot is assigned, repair it if some are missing,
      add or remove exactly the shards that the owners fall short of or exceed, else adjust replicas if some owner has
      another number than declared, else nothing. */
  lemma PlanMeans(cr: ValkeyCluster, ns: Nodes, st: ClusterState)
    requires Observes(st, ns)
    ensures var plan, owners := Topology.Decide(DesiredOf(cr), Summary(st)), |OwnersOf(ns)|;
            plan == if Total(ns) <= 0 then Topology.Form
                    else if Total(ns) != TOTAL_SLOTS then Topology.Repair
                    else if owners < cr.shards then Topology.ScaleOutShards(cr.shards - owners)
                    else if owners > cr.shards then Topology.ScaleInShards(owners - cr.shards)
                    else if WrongReplicas(cr, ns) then Topology.ScaleReplicas(cr.replicas)
                    else Topology.NoAction
  {
    hide Total, Lists, CountOwners, OwnerReplicas, OwnersOf, WrongReplicas;
    OwnersCountedOnce(ns, st.nodes);
    OwnerReplicasCounted(st.nodes, st.nodes);
    WrongSeen(cr, ns, st.nodes);
  }

  lemma FormedNeedsNoForming(cr: ValkeyCluster, ns: Nodes, st: ClusterState)
    requires 0 < Total(ns) && Observes(st, ns)
    ensures !Topology.Decide(DesiredOf(cr), Summary(st)).Form?
  {
    hide Total, Lists, CountOwners, OwnerReplicas;
  }

  lemma GrowsIfFewer(cr: ValkeyCluster, st: ClusterState)
    ensures Topology.Decide(DesiredOf(cr), Summary(st)).ScaleOutShards? ==> 0 <= Summary(st).primaryCount < cr.shards
  {
    hide OwnerReplicas;
  }

  lemma BelowHasNoExcess(cr: ValkeyCluster)
    ensures !Excess(cr, Below(cr.shards)) && forall i: nat | i < cr.shards :: i in Below(cr.shards)
  {
    BelowIs(cr.shards);
    hide Below;
  }

  /** What keeping membership aligned does when the workloads are the declared ones. */
  lemma Aligned(cr: ValkeyCluster, ns: Nodes, after: Nodes)
    requires AllProper(ns) && Staffed(cr, ns) && Rewired(cr, Below(cr.shards), ns, after)
    ensures Converged(cr, after) <==> FirstOwn(cr, ns, cr.shards)
    ensures Healthy(cr, ns) ==> after == Attach(ns, ns, cr) && FirstOwn(cr, ns, cr.shards)
    ensures Converged(cr, ns) ==> after == ns
  {
    hide Rewired, Converged, Healthy, FirstOwn, AllProper, Attach, Placed, Total, OwnersOf, Below;
    RewiredConvergesIff(cr, ns, after);
    if Healthy(cr, ns) {
      HealthyStaffed(cr, ns);
      RewiredPlaced(cr, Below(cr.shards), ns, after);
    }
    if Converged(cr, ns) {
      ConvergedHealthy(cr, ns);
      HealthyStaffed(cr, ns);
      RewiredPlaced(cr, Below(cr.shards), ns, after);
      AttachIsIdle(cr, ns);
    }
  }

  // ---- the pass ----

  /** One pass, over a cluster with k slot owners.
      - A cluster without slots is formed.
      - A covered cluster with as many owners as shards converges, whatever pods joined, left or were added, if and
        only if every shard has an owner among its declared ordinals. A converged one is left alone.
      - A covered cluster with fewer owners grows to the declared shards, if and only if the owners are in the
        first shards.
      - While a shard beyond the declared ones exists, one scale-in step is taken on what the sweep leaves, also where
        slots are missing and a repair would be due.
      - Once slots are assigned, no pass assigns a slot that nobody owns.
      - The status published is that of the cluster as the pass leaves it. */
  method ReconcileCluster(f: FakeCluster, w: Workloads, cr: ValkeyCluster, ghost k: nat)
    returns (progressing: bool, status: ClusterStatus, err: bool, ghost seen: ClusterState)
    requires AllProper(f.nodes) && "" !in f.nodes
    modifies f, w
    ensures AllProper(f.nodes)
    ensures if err then !progressing else Observes(seen, f.nodes) && Tells(status, cr, seen)
    ensures 0 < Total(old(f.nodes)) ==> Total(f.nodes) <= Total(old(f.nodes))
    ensures Unformed(cr, old(f.nodes)) && 0 < cr.shards <= TOTAL_SLOTS ==>
              !err && progressing && status.phase == Ready && Converged(cr, f.nodes) && w.shards == old(w.shards)
    ensures Staffed(cr, old(f.nodes)) && old(w.shards) == Below(cr.shards) ==>
              && !err && !progressing && w.shards == old(w.shards)
              && (Converged(cr, f.nodes) <==> FirstOwn(cr, old(f.nodes), cr.shards))
              && (FirstOwn(cr, old(f.nodes), cr.shards) ==> status.phase == Ready)
              && (Healthy(cr, old(f.nodes)) ==> f.nodes == Attach(old(f.nodes), old(f.nodes), cr))
              && (Converged(cr, old(f.nodes)) ==> f.nodes == old(f.nodes))
    ensures 0 < k < cr.shards <= TOTAL_SLOTS && Growable(cr, old(f.nodes), k) ==>
              && !err && progressing && w.shards == old(w.shards)
              && (Converged(cr, f.nodes) <==> FirstOwn(cr, old(f.nodes), k))
              && (FirstOwn(cr, old(f.nodes), k) ==> status.phase == Ready)
    ensures (Established(cr, old(f.nodes)) && Excess(cr, old(w.shards))
             && InPlace(cr, Swept(cr, old(f.nodes), old(w.shards)), old(w.shards))) ==>
              && !err && progressing
              && (f.nodes, w.shards, err) ==
                 PassFrom(cr, Swept(cr, old(f.nodes), old(w.shards)), old(w.shards), Sorted(old(w.shards)), {})
    ensures 0 < Total(old(f.nodes)) != TOTAL_SLOTS && !Excess(cr, old(w.shards)) ==>
              !err && progressing && f.nodes == old(f.nodes) && w.shards == old(w.shards)
  {
    hide *;
    err, progressing := false, false;
    status := ClusterStatus(Degraded, 0, []);
    ghost var ns, shards := f.nodes, w.shards;
    var st := f.State();
    seen := st;
    var observed := Summarize(st);
    var plan := Topology.Decide(DesiredOf(cr), observed);
    Plans(cr, ns, st, k);
    BelowHasNoExcess(cr);
    assert Staffed(cr, ns) ==> cr.shards > 0 by { StaffedShards(cr, ns); }
    if !plan.Form? && !plan.ScaleOutShards? {
      var excess := HasExcessShards(w, cr);
      if excess {
        plan := Topology.ScaleInShards(0);
      }
    }
    progressing := plan.Form? || plan.Repair? || plan.ScaleOutShards? || plan.ScaleInShards?;
    match plan {
      case Form =>
        FormCluster(f, cr);
      case Repair =>
        // the fake moves slots at once, so it has no open ones to repair
      case ScaleOutShards(_) =>
        ScaleOut(f, cr, observed.primaryCount);
      case ScaleInShards(_) =>
        err := ScaleIn(f, w, cr, {});
        if err {
          progressing := false;
          return;
        }
      case ScaleReplicas(_) =>
        ReconcileMembership(f, w, cr, st);
      case NoAction =>
        ReconcileMembership(f, w, cr, st);
    }
    if Staffed(cr, ns) && shards == Below(cr.shards) {
      Aligned(cr, ns, f.nodes);
    }
    st := f.State();
    seen := st;
    status := UpdateStatus(cr, st);
    TellsPhase(status, cr, st);
    if Converged(cr, f.nodes) {
      ConvergedIsReady(cr, f.nodes, st);
    }
  }

  lemma StaffedShards(cr: ValkeyCluster, ns: Nodes)
    ensures Staffed(cr, ns) ==> cr.shards > 0
  {
  }

  lemma TellsPhase(status: ClusterStatus, cr: ValkeyCluster, st: ClusterState)
    requires Tells(status, cr, st)
    ensures status.phase == PhaseOf(cr, st)
  {
  }

  // ---- the status while shards leave ----

  lemma ObservedDistinct(ns: Nodes, st: ClusterState)
    requires AllProper(ns) && Observes(st, ns)
    ensures DistinctHosts(st.nodes)
    ensures forall e: nat | e < |st.nodes| ::
              st.nodes[e].host == st.nodes[e].id && st.nodes[e].id in ns && ns[st.nodes[e].id] == st.nodes[e]
    ensures |Owners(st.nodes)| == |OwnersOf(ns)|
  {
    hide Total, Proper, OwnersOf, CountOwners;
    OwnersCountedOnce(ns, st.nodes);
    OwnersCounted(st.nodes);
    ListedOnce(st.nodes, ns);
    hide Owners;
  }

  /** A shard whose primary owns slots is seen served. */
  /** With every node up, the replicas that count as ready are the replicas. */
  lemma UpIsReady(ns: Nodes, nodes: seq<NodeInfo>, id: string)
    requires AllProper(ns) && AllUp(ns) && Lists(nodes, ns) && id != ""
    ensures ConnectedTo(nodes, id) == ReplicasAt(nodes, id)
  {
    hide Lists, NodeInfo.IsPrimary, Proper;
    forall e: nat | e < |nodes|
      ensures nodes[e].connected && (nodes[e].IsPrimary() <==> nodes[e].masterID == "")
    {
      ListedIsThere(nodes, ns, e);
      ProperNode(nodes[e]);
    }
  }

  lemma OwnerIsSeen(cr: ValkeyCluster, ns: Nodes, st: ClusterState, i: nat)
    requires AllProper(ns) && Observes(st, ns)
    requires ShardPrimary(ns, cr, i) in ns && ns[ShardPrimary(ns, cr, i)].OwnsSlots()
    ensures ShardServed(cr, st.nodes, i)
  {
    hide Total, Proper, NodeInfo.OwnsSlots, PodFQDN, FirstOwner;
    var h := ShardPrimary(ns, cr, i);
    PrimaryIs(ns, cr, i);
    ListedNode(st.nodes, ns, h);
    var e: nat :| e < |st.nodes| && st.nodes[e].id == h;
    ObservedDistinct(ns, st);
    assert st.nodes[e].host == PodFQDN(cr, i, PrimaryOrd(ns, cr, i));
    assert OnPod(cr, st.nodes[e].host, i);
    assert OwnerIn(cr, st.nodes, e, i);
  }

  /** The pod shown as the shard's primary is the shard's primary. */
  lemma ConvergedShown(cr: ValkeyCluster, ns: Nodes, st: ClusterState, i: nat, e: nat, j: nat)
    requires Converged(cr, ns) && Observes(st, ns) && HighestOwner(cr, st.nodes, i, cr.replicas + 1, e, j)
    ensures e < |st.nodes| && ShardPrimary(ns, cr, i) in ns && st.nodes[e] == ns[ShardPrimary(ns, cr, i)]
    ensures st.nodes[e].id == ShardPrimary(ns, cr, i)
  {
    ObservedDistinct(ns, st);
    hide PodFQDN, PodIndex, NodeInfo.OwnsSlots, ShardPrimary, Total, Known, AllProper, Lists, DistinctHosts;
    var h := st.nodes[e].id;
    assert h == PodFQDN(cr, i, j) && Shard(cr, h) == i;
    assert OwnsDuly(cr, ns, h);
  }

  lemma ConvergedOwns(cr: ValkeyCluster, ns: Nodes, st: ClusterState, i: nat)
    requires Converged(cr, ns) && Observes(st, ns) && i < cr.shards
    ensures PrimaryOrd(ns, cr, i) <= cr.replicas && PodOwns(cr, st.nodes, i, PrimaryOrd(ns, cr, i))
  {
    PrimaryIs(ns, cr, i);
    ObservedDistinct(ns, st);
    OwnPrimary(cr, ns, i);
    hide PodFQDN, PodIndex, NodeInfo.OwnsSlots, FirstOwner, Total, AllProper, Lists, DistinctHosts, PrimaryOrd;
    var e := PositionOf(st.nodes, ns, ShardPrimary(ns, cr, i));
    assert st.nodes[e].host == PodFQDN(cr, i, PrimaryOrd(ns, cr, i));
  }

  lemma ConvergedListed(cr: ValkeyCluster, ns: Nodes, st: ClusterState)
    requires Converged(cr, ns) && Observes(st, ns)
    ensures AllProper(ns) && Lists(st.nodes, ns) && DistinctHosts(st.nodes)
  {
    ObservedDistinct(ns, st);
  }

  lemma ShownReady(entry: ShardStatus, nodes: seq<NodeInfo>, n: NodeInfo)
    requires ShowsPrimary(entry, nodes, n)
    ensures entry.readyReplicas == |ConnectedTo(nodes, n.id)|
  {
  }

  /** The status entry of each shard of a converged cluster with all nodes up: its primary, and every declared replica
      ready. */
  lemma ConvergedEntry(cr: ValkeyCluster, ns: Nodes, st: ClusterState, i: nat)
    requires Converged(cr, ns) && AllUp(ns) && Observes(st, ns) && i < cr.shards
    ensures var entry, p := ShardEntry(cr, st.nodes, HostIndex(st.nodes), i), ShardPrimary(ns, cr, i);
            p in ns && entry.index == i && ShowsPrimary(entry, st.nodes, ns[p]) && entry.readyReplicas == cr.replicas
  {
    hide *;
    var p := ShardPrimary(ns, cr, i);
    ConvergedListed(cr, ns, st);
    ConvergedOwns(cr, ns, st, i);
    var at, e, j := EntryMeans(cr, st.nodes, i);
    ConvergedShown(cr, ns, st, i, e, j);
    NotEmpty(ns, cr, i);
    ShownReady(ShardEntry(cr, st.nodes, HostIndex(st.nodes), i), st.nodes, ns[p]);
    UpIsReady(ns, st.nodes, p);
    ReplicaCount(st.nodes, p);
    ConvergedReplicas(cr, ns, st.nodes, i);
  }

  /** The phase of a cluster in which every declared shard has a slot owner: Resharding while there are more owners than
      shards, else Ready if no slot is missing, else Degraded. */
  lemma ServedPhase(cr: ValkeyCluster, ns: Nodes, st: ClusterState)
    requires AllProper(ns) && Observes(st, ns) && FirstOwn(cr, ns, cr.shards) && 0 < cr.shards <= |OwnersOf(ns)|
    ensures PhaseOf(cr, st) ==
            if |OwnersOf(ns)| > cr.shards then Resharding else if Total(ns) == TOTAL_SLOTS then Ready else Degraded
  {
    hide Total, AllProper, NodeInfo.OwnsSlots, ShardPrimary, ShardServed, DistinctHosts, OwnersOf, Owners, Lists;
    hide PhaseOf;
    ObservedDistinct(ns, st);
    forall i: nat | i < cr.shards
      ensures ShardServed(cr, st.nodes, i)
    {
      OwnerIsSeen(cr, ns, st, i);
    }
    assert SomeServed(cr, st.nodes) by {
      assert ShardServed(cr, st.nodes, 0);
    }
    PhaseMeans(cr, st);
  }

  /** A node of a departing shard owns slots. */
  ghost predicate DepartingOwns(cr: ValkeyCluster, ns: Nodes) {
    exists h :: h in ns && Shard(cr, h) >= cr.shards && ns[h].OwnsSlots()
  }

  /** Among tidy declared shards, there are more owners than shards exactly if a departing node owns slots. */
  lemma MoreOwnersIff(cr: ValkeyCluster, ns: Nodes)
    requires Tidy(cr, ns) && FirstOwn(cr, ns, cr.shards)
    ensures |OwnersOf(ns)| >= cr.shards && (|OwnersOf(ns)| > cr.shards <==> DepartingOwns(cr, ns))
  {
    hide NodeInfo.OwnsSlots, ShardPrimary, Shard, PodFQDN;
    var hosts := PrimaryHosts(ns, cr, cr.shards);
    PrimaryHostsCounted(ns, cr, cr.shards);
    forall h | h in hosts
      ensures h in OwnersOf(ns)
    {
      InPrimaryHosts(ns, cr, cr.shards, h);
      PrimaryForIs(cr, ns, h);
    }
    SubsetSize(hosts, OwnersOf(ns));
    if h :| h in ns && Shard(cr, h) >= cr.shards && ns[h].OwnsSlots() {
      InPrimaryHosts(ns, cr, cr.shards, h);
      assert hosts <= OwnersOf(ns) - {h};
      SubsetSize(hosts, OwnersOf(ns) - {h});
    } else {
      forall h | h in OwnersOf(ns)
        ensures h in hosts
      {
        assert OwnsDuly(cr, ns, h);
        InPrimaryHosts(ns, cr, cr.shards, h);
      }
      assert hosts == OwnersOf(ns);
    }
  }

  /** Batches are left exactly while a departing node owns slots. */
  lemma WorkIff(cr: ValkeyCluster, ns: Nodes)
    requires AllProper(ns)
    ensures Work(cr, ns) > 0 <==> DepartingOwns(cr, ns)
  {
    hide CountRanges, SumLoads, Shard, Proper, NodeInfo.OwnsSlots;
    forall h | h in ns
      ensures Loads(cr, ns)[h] > 0 <==> Shard(cr, h) >= cr.shards && ns[h].OwnsSlots()
    {
      ProperNode(ns[h]);
      OneBatch(ns[h].SlotCount());
    }
    if h :| h in ns && Shard(cr, h) >= cr.shards && ns[h].OwnsSlots() {
      SumLoadsSplit(Loads(cr, ns), h);
    } else {
      var none: map<string, nat> := map[];
      SumOfSubmap(none, Loads(cr, ns));
      EmptySum(none);
    }
  }

  lemma OneBatch(count: int)
    ensures Batches(count) > 0 <==> count > 0
  {
  }

  /** While shards leave a covered and tidy cluster, the phase is Resharding as long as a departing node owns slots, and
      Ready from then on, although the emptied shard is still to be deleted. */
  lemma DrainingPhase(cr: ValkeyCluster, ns: Nodes, shards: set<nat>, st: ClusterState)
    requires Draining(cr, ns, shards) && Total(ns) == TOTAL_SLOTS && Tidy(cr, ns) && Observes(st, ns)
    ensures PhaseOf(cr, st) == if Work(cr, ns) > 0 then Resharding else Ready
  {
    hide Total, AllProper, OwnersOf, Tidy, FirstOwn, Work, Observes, PhaseOf, HasPod, PodFQDN;
    assert AllProper(ns) && cr.shards > 0;
    MoreOwnersIff(cr, ns);
    WorkIff(cr, ns);
    ServedPhase(cr, ns, st);
  }

  // ---- the requeue loop ----

  lemma PodsHaveNames(cr: ValkeyCluster, ns: Nodes, shards: set<nat>)
    requires Draining(cr, ns, shards)
    ensures AllProper(ns) && "" !in ns
  {
    hide PodFQDN, PodIndex, FirstOwn, AllProper;
    assert !IsPod(cr, "");
  }

  lemma AfterNext(cr: ValkeyCluster, ns: Nodes, shards: set<nat>, n: nat)
    ensures var (now, left) := After(cr, ns, shards, n);
            var (after, rest, _) := PassFrom(cr, now, left, Sorted(left), {});
            After(cr, ns, shards, n + 1) == (after, rest)
  {
    hide PassFrom, Sorted;
  }

  /** Requeue until no departing shard is left. The number of passes is known beforehand, and so is what each publishes:
      Resharding until the last slot has left, then Ready, for the pass that empties the last node and the one that
      deletes the shards. */
  method ReconcileScaleIn(f: FakeCluster, w: Workloads, cr: ValkeyCluster, ghost k: nat)
    returns (passes: nat, phases: seq<Phase>)
    requires 0 < cr.shards < k && Converged(cr.(shards := k), f.nodes) && w.shards == Below(k)
    modifies f, w
    ensures passes == Work(cr, old(f.nodes)) + 1
    ensures Converged(cr, f.nodes) && w.shards == Below(cr.shards)
    ensures |phases| == passes
    ensures forall p | 0 <= p < passes :: phases[p] == if p + 1 < Work(cr, old(f.nodes)) then Resharding else Ready
  {
    hide *;
    ghost var ns, work := f.nodes, Work(cr, f.nodes);
    ConvergedDrains(cr, ns, k);
    passes, phases := 0, [];
    AfterNone(cr, ns, Below(k));
    var more := HasExcessShards(w, cr);
    while more
      invariant passes <= work + 1 && (f.nodes, w.shards) == After(cr, ns, Below(k), passes)
      invariant more <==> Excess(cr, w.shards)
      invariant |phases| == passes
      invariant forall p | 0 <= p < passes :: phases[p] == if p + 1 < work then Resharding else Ready
      decreases work + 1 - passes
    {
      ScaleInTakes(cr, ns, Below(k), passes);
      PodsHaveNames(cr, f.nodes, w.shards);
      DrainingIsEstablished(cr, f.nodes, w.shards);
      AfterNext(cr, ns, Below(k), passes);
      var progressing, status, err, seen := ReconcileCluster(f, w, cr, 0);
      passes := passes + 1;
      PublishedPhase(cr, ns, Below(k), passes, f.nodes, seen, status);
      phases := phases + [status.phase];
      more := HasExcessShards(w, cr);
    }
    ScaleInTakes(cr, ns, Below(k), passes);
    ScaleInConverges(cr, ns, k);
  }

  /** What the n-th pass publishes. */
  lemma PublishedPhase(
    cr: ValkeyCluster, ns: Nodes, shards: set<nat>, n: nat, now: Nodes, st: ClusterState, status: ClusterStatus)
    requires Draining(cr, ns, shards) && Excess(cr, shards) && Total(ns) == TOTAL_SLOTS && Tidy(cr, ns)
    requires 0 < n <= Work(cr, ns) + 1 && now == After(cr, ns, shards, n).0
    requires Observes(st, now) && Tells(status, cr, st)
    ensures status.phase == if n < Work(cr, ns) then Resharding else Ready
  {
    hide Draining, Excess, Total, Tidy, Work, After, Observes, PhaseOf, Tells;
    ScaleInTakes(cr, ns, shards, n);
    var (_, left) := After(cr, ns, shards, n);
    ShiftsTotal(cr, ns, now);
    TellsPhase(status, cr, st);
    DrainingPhase(cr, now, left, st);
    if n == Work(cr, ns) + 1 {
      ScaleInTakes(cr, ns, shards, n - 1);
      LastPass(cr, ns, shards, n);
    }
  }

  lemma ShiftsTotal(cr: ValkeyCluster, ns: Nodes, after: Nodes)
    requires Shifts(cr, ns, after)
    ensures Total(after) == Total(ns)
  {
    hide Total, CountRanges, Shard;
  }

  /** Once no batch is left, the next pass leaves none. */
  lemma LastPass(cr: ValkeyCluster, ns: Nodes, shards: set<nat>, n: nat)
    requires n > 0 && Draining(cr, ns, shards) && Excess(cr, shards) && n == Work(cr, ns) + 1
    ensures Work(cr, After(cr, ns, shards, n).0) == 0
  {
    hide Work, After, PodFQDN, PodIndex, AllProper, FirstOwn, Total;
    ScaleInTakes(cr, ns, shards, n);
    var (now, left) := After(cr, ns, shards, n);
    WorkIff(cr, now);
    forall h | h in now
      ensures Shard(cr, h) < cr.shards
    {
      assert HasPod(cr, left, h);
    }
  }

  lemma AfterNone(cr: ValkeyCluster, ns: Nodes, shards: set<nat>)
    ensures After(cr, ns, shards, 0) == (ns, shards)
  {
  }

  // ---- failover ----

  /** Every replica's master is another known pod of its own shard. */
  ghost predicate InShard(cr: ValkeyCluster, ns: Nodes) {
    forall h | h in ns && ns[h].masterID != "" ::
      var m := ns[h].masterID; m in ns && m != h && Shard(cr, m) == Shard(cr, h)
  }

  lemma ConvergedInShard(cr: ValkeyCluster, ns: Nodes)
    requires Converged(cr, ns)
    ensures InShard(cr, ns)
  {
    hide PodFQDN, PodIndex, CountRanges, Total, Proper, ShardPrimary, NodeInfo.OwnsSlots;
    forall h | h in ns && ns[h].masterID != ""
      ensures var m := ns[h].masterID; m in ns && m != h && Shard(cr, m) == Shard(cr, h)
    {
      assert Declared(cr, h) && OwnsDuly(cr, ns, h) && FollowsDuly(cr, ns, h);
      ProperNode(ns[h]);
      ReplicaIsNoOwner(ns[h]);
      PrimaryIs(ns, cr, Shard(cr, h));
      PrimaryKnown(cr, ns, Shard(cr, h));
    }
  }

  lemma PrimaryKnown(cr: ValkeyCluster, ns: Nodes, i: nat)
    requires Known(cr, ns, cr.shards) && i < cr.shards
    ensures ShardPrimary(ns, cr, i) in ns
  {
    PrimaryIs(ns, cr, i);
    hide PodFQDN, PodIndex, FirstOwner, PrimaryOrd;
  }

  lemma ReplicaIsNoOwner(n: NodeInfo)
    requires Proper(n) && n.masterID != ""
    ensures !n.OwnsSlots() && n.SlotCount() == 0
  {
    ProperNode(n);
  }

  /** The replica takes exactly its master's slots; everybody else keeps theirs. */
  lemma FailoverSwaps(ns: Nodes, h: string)
    requires AllProper(ns) && h in ns && h != "" && ns[h].masterID in ns && ns[h].masterID != "" && ns[h].masterID != h
    ensures var m := ns[h].masterID;
            var after := FailedOver(ns, h);
            && after.Keys == ns.Keys && AllProper(after) && Total(after) == Total(ns)
            && after[h].slots == ns[m].slots && after[h].masterID == "" && after[m].masterID == h
            && (after[h].OwnsSlots() <==> ns[m].OwnsSlots()) && !after[m].OwnsSlots() && !ns[h].OwnsSlots()
            && (forall g | g in ns && g != h && g != m :: after[g] == ns[g])
  {
    hide Total, CountRanges;
    var m := ns[h].masterID;
    var up, down := AsMaster(ns[h]).(slots := ns[m].slots), AsReplica(ns[m], h);
    ReplicaIsNoOwner(ns[h]);
    ProperNode(ns[m]);
    assert Proper(up);
    ProperNode(up);
    ReplicaOwnsNothing(ns[m], h);
    TotalUpdate(ns, h, up);
    TotalUpdate(ns[h := up], m, down);
  }

  lemma FailoverInShard(cr: ValkeyCluster, ns: Nodes, h: string)
    requires AllProper(ns) && "" !in ns && InShard(cr, ns)
    ensures InShard(cr, FailedOver(ns, h))
  {
    hide Proper, Shard;
  }

  /** A failover inside a shard leaves every shard one slot owner. */
  lemma FailoverKeepsHealth(cr: ValkeyCluster, ns: Nodes, h: string)
    requires Healthy(cr, ns) && InShard(cr, ns) && "" !in ns
    ensures var after := FailedOver(ns, h); Healthy(cr, after) && InShard(cr, after) && after.Keys == ns.Keys
  {
    hide Total, CountRanges, PodFQDN, PodIndex, NodeInfo.OwnsSlots, ShardPrimary, Known, AllProper, Shard, IsPod;
    var after := FailedOver(ns, h);
    if h in ns && ns[h].masterID != "" {
      FailoverSwaps(ns, h);
      SameKnown(cr, ns, after);
      HealthyHasOneOwner(cr, ns);
      forall g | g in ns
        ensures OwnsDuly(cr, after, g) && Declared(cr, g)
      {
        assert Declared(cr, g) && OwnsDuly(cr, ns, g);
        FailoverPrimary(cr, ns, h, g);
      }
    }
    FailoverInShard(cr, ns, h);
  }

  lemma FailoverPrimary(cr: ValkeyCluster, ns: Nodes, h: string, g: string)
    requires Healthy(cr, ns) && InShard(cr, ns) && "" !in ns && h in ns && ns[h].masterID != "" && g in ns
    ensures OwnsDuly(cr, FailedOver(ns, h), g)
  {
    hide Total, CountRanges, PodFQDN, PodIndex, NodeInfo.OwnsSlots, ShardPrimary, Known, Proper, FailedOver;
    var after, m, i := FailedOver(ns, h), ns[h].masterID, Shard(cr, g);
    FailoverSwaps(ns, h);
    assert Declared(cr, g) && Declared(cr, h) && OwnsDuly(cr, ns, g) && OwnsDuly(cr, ns, m);
    if i == Shard(cr, h) && ns[m].OwnsSlots() {
      forall j: nat | j <= cr.replicas
        ensures OwnerAt(after, cr, i, j) <==> PodFQDN(cr, i, j) == h
      {
        assert Shard(cr, PodFQDN(cr, i, j)) == i;
        assert PodFQDN(cr, i, j) in ns ==> OwnsDuly(cr, ns, PodFQDN(cr, i, j));
      }
      OnlyOwner(cr, after, h);
    } else {
      forall j: nat | j <= cr.replicas
        ensures OwnerAt(after, cr, i, j) <==> OwnerAt(ns, cr, i, j)
      {
        assert Shard(cr, PodFQDN(cr, i, j)) == i;
      }
      SamePrimary(after, ns, cr, i);
    }
  }

  lemma OnlyOwner(cr: ValkeyCluster, ns: Nodes, h: string)
    requires IsPod(cr, h)
    requires forall j: nat | j <= cr.replicas :: OwnerAt(ns, cr, Shard(cr, h), j) <==> PodFQDN(cr, Shard(cr, h), j) == h
    ensures PrimaryFor(ns, cr, h) == h
  {
    hide PodFQDN, PodIndex, NodeInfo.OwnsSlots, FirstOwner;
    FirstOwnerIs(ns, cr, Shard(cr, h), 0);
    assert OwnerAt(ns, cr, Shard(cr, h), Ordinal(cr, h));
    var o := FirstOwner(ns, cr, Shard(cr, h), 0);
    assert OwnerAt(ns, cr, Shard(cr, h), o.value);
  }

  /** The cluster after a series of failovers. */
  function AfterFailovers(ns: Nodes, hs: seq<string>): Nodes {
    if hs == [] then ns else FailedOver(AfterFailovers(ns, hs[..|hs| - 1]), hs[|hs| - 1])
  }

  /** However many failovers happen between two passes, the next pass converges again with no slot lost. */
  lemma {:induction false} FailoversHeal(cr: ValkeyCluster, ns: Nodes, hs: seq<string>)
    requires Converged(cr, ns) && "" !in ns
    ensures var after := AfterFailovers(ns, hs);
            && Healthy(cr, after) && InShard(cr, after) && after.Keys == ns.Keys
            && Converged(cr, Attach(after, after, cr)) && Total(Attach(after, after, cr)) == TOTAL_SLOTS
  {
    hide Healthy, InShard, FailedOver, Attach, Total;
    ConvergedHealthy(cr, ns);
    if hs == [] {
      ConvergedInShard(cr, ns);
    } else {
      FailoversHeal(cr, ns, hs[..|hs| - 1]);
      FailoverKeepsHealth(cr, AfterFailovers(ns, hs[..|hs| - 1]), hs[|hs| - 1]);
    }
    var after := AfterFailovers(ns, hs);
    AttachConverges(cr, after);
    ConvergedTotal(cr, Attach(after, after, cr));
  }

  lemma ConvergedTotal(cr: ValkeyCluster, ns: Nodes)
    requires Converged(cr, ns)
    ensures Total(ns) == TOTAL_SLOTS
  {
    hide Total;
  }

  /** Any failovers, then one pass: the cluster is converged again and Ready, with all slots assigned. */
  method FailThenReconcile(f: FakeCluster, w: Workloads, cr: ValkeyCluster, hs: seq<string>)
    returns (status: ClusterStatus)
    requires Converged(cr, f.nodes) && "" !in f.nodes && w.shards == Below(cr.shards)
    modifies f, w
    ensures Converged(cr, f.nodes) && status.phase == Ready && Total(f.nodes) == TOTAL_SLOTS
    ensures f.nodes.Keys == old(f.nodes).Keys && w.shards == old(w.shards)
    ensures f.nodes == Attach(AfterFailovers(old(f.nodes), hs), AfterFailovers(old(f.nodes), hs), cr)
  {
    hide *;
    ghost var ns := f.nodes;
    assert AfterFailovers(ns, hs[..0]) == ns by { NoFailover(ns, hs); }
    for i := 0 to |hs|
      invariant f.nodes == AfterFailovers(ns, hs[..i]) && w.shards == old(w.shards)
    {
      OneFailover(ns, hs, i);
      f.Failover(hs[i]);
    }
    assert hs[..|hs|] == hs;
    FailoversHeal(cr, ns, hs);
    ghost var after := f.nodes;
    HealthyStaffed(cr, after);
    PlacedProper(cr, after);
    AttachKeepsKeys(after, cr);
    var progressing, err;
    ghost var seen;
    progressing, status, err, seen := ReconcileCluster(f, w, cr, 0);
  }

  lemma NoFailover(ns: Nodes, hs: seq<string>)
    ensures AfterFailovers(ns, hs[..0]) == ns
  {
  }

  lemma OneFailover(ns: Nodes, hs: seq<string>, i: nat)
    requires i < |hs|
    ensures AfterFailovers(ns, hs[..i + 1]) == FailedOver(AfterFailovers(ns, hs[..i]), hs[i])
  {
    assert hs[..i + 1][..i] == hs[..i];
  }

  lemma PlacedProper(cr: ValkeyCluster, ns: Nodes)
    requires Placed(cr, ns)
    ensures AllProper(ns)
  {
  }

  lemma AttachKeepsKeys(ns: Nodes, cr: ValkeyCluster)
    ensures Attach(ns, ns, cr).Keys == ns.Keys
  {
    hide Unattached, ShardPrimary, Shard;
  }
}
