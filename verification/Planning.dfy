/** A converged cluster, seen by the planner and by the status: nothing to do, and Ready. */
module Planning {
  import opened Cluster
  import opened Names
  import opened Fake
  import opened Membership
  import opened Status
  import Topology

  // ---- counting listed nodes by ID ----

  /** The IDs of the listed slot owners. */
  function OwnerIds(nodes: seq<NodeInfo>): set<string> {
    if nodes == [] then {}
    else OwnerIds(nodes[..|nodes| - 1]) + if nodes[|nodes| - 1].OwnsSlots() then {nodes[|nodes| - 1].id} else {}
  }

  predicate ReplicaOf(n: NodeInfo, p: string) {
    !n.IsPrimary() && n.masterID != "" && n.masterID == p
  }

  /** The IDs of the listed replicas of `p`. */
  function ReplicaIds(nodes: seq<NodeInfo>, p: string): set<string> {
    if nodes == [] then {}
    else ReplicaIds(nodes[..|nodes| - 1], p) + if ReplicaOf(nodes[|nodes| - 1], p) then {nodes[|nodes| - 1].id} else {}
  }

  ghost predicate DistinctIds(nodes: seq<NodeInfo>) {
    forall i, j | 0 <= i < j < |nodes| :: nodes[i].id != nodes[j].id
  }

  lemma {:induction false} InOwnerIds(nodes: seq<NodeInfo>, h: string)
    ensures h in OwnerIds(nodes) <==> exists i :: 0 <= i < |nodes| && nodes[i].id == h && nodes[i].OwnsSlots()
  {
    hide NodeInfo.OwnsSlots;
    if nodes != [] {
      var rest := nodes[..|nodes| - 1];
      assert forall i | 0 <= i < |rest| :: rest[i] == nodes[i];
      InOwnerIds(rest, h);
    }
  }

  lemma {:induction false} OwnerIdsCounted(nodes: seq<NodeInfo>)
    requires DistinctIds(nodes)
    ensures |OwnerIds(nodes)| == CountOwners(nodes)
  {
    hide NodeInfo.OwnsSlots;
    if nodes != [] {
      var rest, last := nodes[..|nodes| - 1], nodes[|nodes| - 1];
      OwnerIdsCounted(rest);
      InOwnerIds(rest, last.id);
    }
  }

  lemma {:induction false} InReplicaIds(nodes: seq<NodeInfo>, p: string, h: string)
    ensures h in ReplicaIds(nodes, p) <==> exists i :: 0 <= i < |nodes| && nodes[i].id == h && ReplicaOf(nodes[i], p)
  {
    hide ReplicaOf;
    if nodes != [] {
      var rest := nodes[..|nodes| - 1];
      assert forall i | 0 <= i < |rest| :: rest[i] == nodes[i];
      InReplicaIds(rest, p, h);
    }
  }

  lemma {:induction false} ReplicaIdsCounted(nodes: seq<NodeInfo>, p: string)
    requires DistinctIds(nodes)
    ensures |ReplicaIds(nodes, p)| == ReplicasOf(nodes, p)
  {
    if nodes != [] {
      var rest, last := nodes[..|nodes| - 1], nodes[|nodes| - 1];
      ReplicaIdsCounted(rest, p);
      InReplicaIds(rest, p, last.id);
    }
  }

  lemma ListedNode(nodes: seq<NodeInfo>, ns: Nodes, h: string)
    requires Lists(nodes, ns)
    ensures h in ns <==> exists i :: 0 <= i < |nodes| && nodes[i].id == h
    ensures forall i | 0 <= i < |nodes| && nodes[i].id == h :: h in ns && nodes[i] == ns[h]
  {
    assert h in ns ==> h in Ids(nodes);
  }

  lemma OwnerIdsOf(nodes: seq<NodeInfo>, ns: Nodes, h: string)
    requires Lists(nodes, ns)
    ensures h in OwnerIds(nodes) <==> h in ns && ns[h].OwnsSlots()
  {
    hide NodeInfo.OwnsSlots, OwnerIds;
    InOwnerIds(nodes, h);
    ListedNode(nodes, ns, h);
    hide Lists;
  }

  lemma ReplicaIdsOf(nodes: seq<NodeInfo>, ns: Nodes, p: string, h: string)
    requires Lists(nodes, ns)
    ensures h in ReplicaIds(nodes, p) <==> h in ns && ReplicaOf(ns[h], p)
  {
    hide ReplicaOf, ReplicaIds;
    InReplicaIds(nodes, p, h);
    ListedNode(nodes, ns, h);
    hide Lists;
  }

  // ---- the hosts that should be there ----

  /** The primaries of the first k shards. */
  ghost function PrimaryHosts(ns: Nodes, cr: ValkeyCluster, k: nat): set<string> {
    if k == 0 then {} else PrimaryHosts(ns, cr, k - 1) + {ShardPrimary(ns, cr, k - 1)}
  }

  lemma {:induction false} InPrimaryHosts(ns: Nodes, cr: ValkeyCluster, k: nat, h: string)
    ensures h in PrimaryHosts(ns, cr, k) <==> Shard(cr, h) < k && h == PrimaryFor(ns, cr, h)
  {
    hide ShardPrimary, Shard;
    if k > 0 {
      InPrimaryHosts(ns, cr, k - 1, h);
      ShardOfPrimary(ns, cr, k - 1);
    }
  }

  lemma {:induction false} PrimaryHostsCounted(ns: Nodes, cr: ValkeyCluster, k: nat)
    ensures |PrimaryHosts(ns, cr, k)| == k
  {
    hide ShardPrimary, Shard;
    if k > 0 {
      PrimaryHostsCounted(ns, cr, k - 1);
      ShardOfPrimary(ns, cr, k - 1);
      InPrimaryHosts(ns, cr, k - 1, ShardPrimary(ns, cr, k - 1));
    }
  }

  lemma ShardOfPrimary(ns: Nodes, cr: ValkeyCluster, i: nat)
    ensures Shard(cr, ShardPrimary(ns, cr, i)) == i
  {
    PrimaryIs(ns, cr, i);
  }

  /** The pods of shard i with an ordinal below k, but for ordinal `but`. */
  ghost function OtherPods(cr: ValkeyCluster, i: nat, but: nat, k: nat): set<string> {
    if k == 0 then {} else OtherPods(cr, i, but, k - 1) + if k - 1 == but then {} else {PodFQDN(cr, i, k - 1)}
  }

  lemma {:induction false} InOtherPods(cr: ValkeyCluster, i: nat, but: nat, k: nat, h: string)
    ensures h in OtherPods(cr, i, but, k) <==>
            PodIndex(cr, h).Some? && Shard(cr, h) == i && Ordinal(cr, h) < k && Ordinal(cr, h) != but
            && h == PodFQDN(cr, i, Ordinal(cr, h))
  {
    hide PodFQDN, PodIndex;
    if k > 0 {
      InOtherPods(cr, i, but, k - 1, h);
      assert Shard(cr, PodFQDN(cr, i, k - 1)) == i && Ordinal(cr, PodFQDN(cr, i, k - 1)) == k - 1;
    }
  }

  lemma {:induction false} OtherPodsCounted(cr: ValkeyCluster, i: nat, but: nat, k: nat)
    ensures |OtherPods(cr, i, but, k)| == if but < k then k - 1 else k
  {
    hide PodFQDN, PodIndex;
    if k > 0 {
      OtherPodsCounted(cr, i, but, k - 1);
      InOtherPods(cr, i, but, k - 1, PodFQDN(cr, i, k - 1));
    }
  }

  // ---- a converged cluster needs nothing ----

  lemma ConvergedHealthy(cr: ValkeyCluster, ns: Nodes)
    requires Converged(cr, ns)
    ensures Healthy(cr, ns)
  {
  }

  lemma HealthyOwner(cr: ValkeyCluster, ns: Nodes, h: string)
    requires Healthy(cr, ns)
    ensures h in ns && ns[h].OwnsSlots() <==> Shard(cr, h) < cr.shards && h == PrimaryFor(ns, cr, h)
  {
    hide NodeInfo.OwnsSlots, Total, AllProper, PodFQDN, PodIndex;
    if h in ns {
      assert OwnsDuly(cr, ns, h) && Declared(cr, h);
    } else if h == PrimaryFor(ns, cr, h) {
      PrimaryIs(ns, cr, Shard(cr, h));
    }
  }

  /** The listed slot owners are the primaries of the declared shards. */
  lemma HealthyCount(cr: ValkeyCluster, ns: Nodes, nodes: seq<NodeInfo>)
    requires Healthy(cr, ns) && Lists(nodes, ns)
    ensures CountOwners(nodes) == cr.shards
  {
    hide *;
    assert OwnerIds(nodes) == PrimaryHosts(ns, cr, cr.shards) by {
      forall h
        ensures h in OwnerIds(nodes) <==> h in PrimaryHosts(ns, cr, cr.shards)
      {
        OwnerIdsOf(nodes, ns, h);
        InPrimaryHosts(ns, cr, cr.shards, h);
        HealthyOwner(cr, ns, h);
      }
    }
    ListedOnce(nodes, ns);
    OwnerIdsCounted(nodes);
    PrimaryHostsCounted(ns, cr, cr.shards);
  }

  lemma ListedOnce(nodes: seq<NodeInfo>, ns: Nodes)
    requires Lists(nodes, ns)
    ensures DistinctIds(nodes)
  {
  }

  lemma ConvergedReplica(cr: ValkeyCluster, ns: Nodes, i: nat, h: string)
    requires Converged(cr, ns) && i < cr.shards
    ensures h in ns && ReplicaOf(ns[h], ShardPrimary(ns, cr, i)) <==>
            PodIndex(cr, h).Some? && Shard(cr, h) == i && Ordinal(cr, h) < cr.replicas + 1
            && Ordinal(cr, h) != PrimaryOrd(ns, cr, i) && h == PodFQDN(cr, i, Ordinal(cr, h))
  {
    PrimaryIs(ns, cr, i);
    PrimaryIs(ns, cr, Shard(cr, h));
    NotEmpty(ns, cr, i);
    hide PodFQDN, PodIndex, Total, FirstOwner, CountRanges;
    if h in ns {
      assert OwnsDuly(cr, ns, h) && FollowsDuly(cr, ns, h) && Declared(cr, h);
      ProperNode(ns[h]);
    }
  }

  /** Every primary of a converged cluster has the declared number of replicas. */
  lemma ConvergedReplicas(cr: ValkeyCluster, ns: Nodes, nodes: seq<NodeInfo>, i: nat)
    requires Converged(cr, ns) && Lists(nodes, ns) && i < cr.shards
    ensures ReplicasOf(nodes, ShardPrimary(ns, cr, i)) == cr.replicas
  {
    PrimaryIs(ns, cr, i);
    hide *;
    var p, others := ShardPrimary(ns, cr, i), OtherPods(cr, i, PrimaryOrd(ns, cr, i), cr.replicas + 1);
    assert ReplicaIds(nodes, p) == others by {
      forall h
        ensures h in ReplicaIds(nodes, p) <==> h in others
      {
        ReplicaIdsOf(nodes, ns, p, h);
        InOtherPods(cr, i, PrimaryOrd(ns, cr, i), cr.replicas + 1, h);
        ConvergedReplica(cr, ns, i, h);
      }
    }
    ListedOnce(nodes, ns);
    ReplicaIdsCounted(nodes, p);
    OtherPodsCounted(cr, i, PrimaryOrd(ns, cr, i), cr.replicas + 1);
  }

  lemma {:induction false} AllReplicas(cr: ValkeyCluster, ns: Nodes, nodes: seq<NodeInfo>, all: seq<NodeInfo>)
    requires Converged(cr, ns) && Lists(all, ns)
    requires forall k | 0 <= k < |nodes| :: nodes[k].id in ns && ns[nodes[k].id] == nodes[k]
    ensures forall k | 0 <= k < |OwnerReplicas(nodes, all)| :: OwnerReplicas(nodes, all)[k] == cr.replicas
  {
    hide NodeInfo.OwnsSlots, Converged, Lists, ReplicasOf, ShardPrimary, Shard, Healthy;
    if nodes != [] {
      var last := nodes[|nodes| - 1];
      AllReplicas(cr, ns, nodes[..|nodes| - 1], all);
      if last.OwnsSlots() {
        ConvergedHealthy(cr, ns);
        HealthyOwner(cr, ns, last.id);
        ConvergedReplicas(cr, ns, all, Shard(cr, last.id));
      }
    }
  }

  /** The planner has nothing to do on a converged cluster. */
  lemma ConvergedNeedsNothing(cr: ValkeyCluster, ns: Nodes, st: ClusterState)
    requires Converged(cr, ns) && Observes(st, ns)
    ensures Topology.Decide(DesiredOf(cr), Summary(st)).NoAction?
  {
    hide Total, Converged, Observes, Lists, CountOwners, OwnerReplicas, ReplicasOf;
    ConvergedHealthy(cr, ns);
    ObservedHosts(cr, ns, st);
    HealthyCount(cr, ns, st.nodes);
    OwnerReplicasCounted(st.nodes, st.nodes);
    AllReplicas(cr, ns, st.nodes, st.nodes);
  }

  lemma ConvergedOwnerIn(cr: ValkeyCluster, ns: Nodes, nodes: seq<NodeInfo>, e: nat, i: nat)
    requires Converged(cr, ns) && Lists(nodes, ns) && e < |nodes|
    ensures OwnerIn(cr, nodes, e, i) <==> i < cr.shards && nodes[e].id == ShardPrimary(ns, cr, i)
  {
    var h := nodes[e].id;
    HealthyOwner(cr, ns, h);
    PrimaryIs(ns, cr, i);
    assert h in ns && ns[h] == nodes[e] && Declared(cr, h) && nodes[e].host == h;
    hide NodeInfo.OwnsSlots, Converged, Lists, PodFQDN, PodIndex, FirstOwner;
    if OnPod(cr, h, i) {
      var j :| 0 <= j <= cr.replicas && h == PodFQDN(cr, i, j);
      assert Shard(cr, h) == i;
    }
    if h == ShardPrimary(ns, cr, i) {
      assert OnPod(cr, h, i);
    }
  }

  /** A converged cluster is Ready. */
  lemma ConvergedIsReady(cr: ValkeyCluster, ns: Nodes, st: ClusterState)
    requires Converged(cr, ns) && Observes(st, ns)
    ensures PhaseOf(cr, st) == Ready
  {
    hide *;
    var nodes := st.nodes;
    ConvergedHealthy(cr, ns);
    ObservedHosts(cr, ns, st);
    ConvergedNeedsNothing(cr, ns, st);
    forall e: nat | e < |nodes| && nodes[e].OwnsSlots()
      ensures exists i: nat :: i < cr.shards && OwnerIn(cr, nodes, e, i)
    {
      ListedNode(nodes, ns, nodes[e].id);
      HealthyOwner(cr, ns, nodes[e].id);
      var i := Shard(cr, nodes[e].id);
      ConvergedOwnerIn(cr, ns, nodes, e, i);
      PrimaryForIs(cr, ns, nodes[e].id);
      assert OwnerIn(cr, nodes, e, i);
    }
    ListedOnce(nodes, ns);
    WellPlacedIf(cr, ns, nodes);
    NoActionIsReady(cr, st);
  }

  lemma ObservedHosts(cr: ValkeyCluster, ns: Nodes, st: ClusterState)
    requires Healthy(cr, ns) && Observes(st, ns)
    ensures Lists(st.nodes, ns) && Total(ns) == TOTAL_SLOTS && st.formed && st.slotsCovered && !st.openSlots
    ensures forall e: nat | e < |st.nodes| ::
              st.nodes[e].host == st.nodes[e].id && st.nodes[e].id in ns && ns[st.nodes[e].id] == st.nodes[e]
  {
    hide Total, Proper;
  }

  lemma PrimaryForIs(cr: ValkeyCluster, ns: Nodes, h: string)
    ensures PrimaryFor(ns, cr, h) == ShardPrimary(ns, cr, Shard(cr, h))
  {
  }

  lemma WellPlacedIf(cr: ValkeyCluster, ns: Nodes, nodes: seq<NodeInfo>)
    requires Converged(cr, ns) && Lists(nodes, ns) && DistinctIds(nodes)
    requires forall e: nat | e < |nodes| :: nodes[e].host == nodes[e].id
    requires forall e: nat | e < |nodes| && nodes[e].OwnsSlots() ::
               exists i: nat :: i < cr.shards && OwnerIn(cr, nodes, e, i)
    ensures WellPlaced(cr, nodes)
  {
    hide Converged, Lists, NodeInfo.OwnsSlots, OnPod;
    forall i: nat, e: nat, e': nat | OwnerIn(cr, nodes, e, i) && OwnerIn(cr, nodes, e', i)
      ensures e == e'
    {
      ConvergedOwnerIn(cr, ns, nodes, e, i);
      ConvergedOwnerIn(cr, ns, nodes, e', i);
    }
  }
}
