/** What the published status says about the observed cluster, in terms of the listed nodes alone. */
module Reports {
  import opened Wrappers
  import opened Cluster
  import opened Names
  import opened Text
  import opened Slots
  import opened Status

  // ---- counting ----

  /** No host is listed twice. */
  ghost predicate DistinctHosts(nodes: seq<NodeInfo>) {
    forall e: nat, e': nat | e < e' < |nodes| :: nodes[e].host != nodes[e'].host
  }

  /** With distinct hosts, the index by host has exactly the listed nodes. */
  lemma HostIndexIs(nodes: seq<NodeInfo>, h: string)
    requires DistinctHosts(nodes)
    ensures h in HostIndex(nodes) <==> exists e: nat :: e < |nodes| && nodes[e].host == h
    ensures forall e: nat | e < |nodes| && nodes[e].host == h ::
              h in HostIndex(nodes) && HostIndex(nodes)[h] == nodes[e]
  {
    if h in HostIndex(nodes) {
      HostIndexFrom(nodes, h);
    }
    hide HostIndex;
    forall e: nat | e < |nodes| && nodes[e].host == h
      ensures h in HostIndex(nodes) && HostIndex(nodes)[h] == nodes[e]
    {
      HostIndexHas(nodes, e);
    }
  }

  /** The shard's pod with ordinal j is listed and owns slots. */
  ghost predicate PodOwns(cr: ValkeyCluster, nodes: seq<NodeInfo>, i: nat, j: nat) {
    exists e: nat :: e < |nodes| && nodes[e].host == PodFQDN(cr, i, j) && nodes[e].OwnsSlots()
  }

  lemma PodOwnsIs(cr: ValkeyCluster, nodes: seq<NodeInfo>, i: nat, j: nat)
    requires DistinctHosts(nodes)
    ensures var h := PodFQDN(cr, i, j);
            h in HostIndex(nodes) && HostIndex(nodes)[h].OwnsSlots() <==> PodOwns(cr, nodes, i, j)
  {
    hide PodFQDN, HostIndex, NodeInfo.OwnsSlots;
    HostIndexIs(nodes, PodFQDN(cr, i, j));
  }

  /** The shard has a primary in the index exactly if one of its declared pods is listed with slots. */
  lemma ServingIff(cr: ValkeyCluster, nodes: seq<NodeInfo>, i: nat)
    requires DistinctHosts(nodes)
    ensures Serving(HostIndex(nodes), cr, i) <==> ShardServed(cr, nodes, i)
  {
    hide PodFQDN, NodeInfo.OwnsSlots, HostIndex, LastOwner;
    if Serving(HostIndex(nodes), cr, i) {
      OwnerListed(cr, nodes, i, cr.replicas + 1);
    }
    if e: nat :| OwnerIn(cr, nodes, e, i) {
      var j :| 0 <= j <= cr.replicas && nodes[e].host == PodFQDN(cr, i, j);
      HostIndexIs(nodes, nodes[e].host);
      OwnerServes(HostIndex(nodes), cr, i, j, cr.replicas + 1);
    }
  }

  /** The shards below k with a listed slot owner. */
  ghost function ServedShards(cr: ValkeyCluster, nodes: seq<NodeInfo>, k: nat): set<nat> {
    set i: nat | i < k && ShardServed(cr, nodes, i)
  }

  lemma {:induction false} ReadyCount(cr: ValkeyCluster, nodes: seq<NodeInfo>, k: nat)
    requires DistinctHosts(nodes)
    ensures ReadyShards(HostIndex(nodes), cr, k) == |ServedShards(cr, nodes, k)|
  {
    hide HostIndex, Serving, ShardServed, DistinctHosts;
    if k > 0 {
      ReadyCount(cr, nodes, k - 1);
      ServingIff(cr, nodes, k - 1);
      assert ServedShards(cr, nodes, k) ==
             ServedShards(cr, nodes, k - 1) + if ShardServed(cr, nodes, k - 1) then {k - 1} else {};
    }
  }

  lemma ServedCount(cr: ValkeyCluster, nodes: seq<NodeInfo>)
    ensures |ServedShards(cr, nodes, cr.shards)| == cr.shards <==> AllServed(cr, nodes)
    ensures |ServedShards(cr, nodes, cr.shards)| > 0 <==> SomeServed(cr, nodes)
  {
    hide ShardServed;
    var served := ServedShards(cr, nodes, cr.shards);
    BelowIs(cr.shards);
    hide Below;
    assert served <= Below(cr.shards);
    if |served| == cr.shards {
      FullSubset(served, Below(cr.shards));
      forall i: nat | i < cr.shards
        ensures ShardServed(cr, nodes, i)
      {
        assert i in Below(cr.shards);
      }
    }
    if AllServed(cr, nodes) {
      assert served == Below(cr.shards);
    }
    if i: nat :| i < cr.shards && ShardServed(cr, nodes, i) {
      assert i in served;
    }
  }

  // ---- the phase ----

  /** Some declared shard has a listed slot owner. */
  ghost predicate SomeServed(cr: ValkeyCluster, nodes: seq<NodeInfo>) {
    exists i: nat :: i < cr.shards && ShardServed(cr, nodes, i)
  }

  ghost predicate AllServed(cr: ValkeyCluster, nodes: seq<NodeInfo>) {
    forall i: nat | i < cr.shards :: ShardServed(cr, nodes, i)
  }

  /** Every declared shard has a slot owner, there are as many owners as shards, and all slots are covered, none of them
      open. */
  ghost predicate AllWell(cr: ValkeyCluster, st: ClusterState) {
    AllServed(cr, st.nodes) && |Owners(st.nodes)| == cr.shards && st.slotsCovered && !st.openSlots
  }

  /** Which report is published: all is well; or a shard is served, and there are more owners than shards, or else a
      slot is open; or no shard is served; or none of this. */
  lemma CaseMeans(cr: ValkeyCluster, st: ClusterState)
    requires DistinctHosts(st.nodes)
    ensures var served, more := SomeServed(cr, st.nodes), |Owners(st.nodes)| > cr.shards;
            && (CaseOf(cr, st).AllReady? <==> AllWell(cr, st))
            && (CaseOf(cr, st).Removing? <==> !AllWell(cr, st) && served && more)
            && (CaseOf(cr, st).Migrating? <==> !AllWell(cr, st) && served && !more && st.openSlots)
            && (CaseOf(cr, st).NoPrimaries? <==> !AllWell(cr, st) && !served)
            && (CaseOf(cr, st).Partial? <==> !AllWell(cr, st) && served && !more && !st.openSlots)
  {
    hide HostIndex, ReadyShards, CountOwners, Owners, ServedShards, SomeServed, AllServed, DistinctHosts, ShardServed;
    ReadyCount(cr, st.nodes, cr.shards);
    ServedCount(cr, st.nodes);
    OwnersCounted(st.nodes);
  }

  /** The phase published: Ready if all is well, else Resharding if some shard is served and there are more owners than
      shards or a slot is open, else Degraded. */
  lemma PhaseMeans(cr: ValkeyCluster, st: ClusterState)
    requires DistinctHosts(st.nodes)
    ensures var moving := SomeServed(cr, st.nodes) && (|Owners(st.nodes)| > cr.shards || st.openSlots);
            && (PhaseOf(cr, st) == Ready <==> AllWell(cr, st))
            && (PhaseOf(cr, st) == Resharding <==> !AllWell(cr, st) && moving)
            && (PhaseOf(cr, st) == Degraded <==> !AllWell(cr, st) && !moving)
  {
    hide CaseOf, AllWell, SomeServed, Owners, DistinctHosts;
    CaseMeans(cr, st);
  }

  // ---- a shard's entry ----

  /** The listed replicas of `id` that are connected, by position. */
  function ConnectedTo(nodes: seq<NodeInfo>, id: string): set<nat> {
    set e: nat | e < |nodes| && nodes[e].masterID == id && nodes[e].connected
  }

  lemma {:induction false} ConnectedCount(nodes: seq<NodeInfo>, id: string)
    ensures ConnectedReplicas(nodes, id) == |ConnectedTo(nodes, id)|
  {
    if nodes != [] {
      var rest, e := nodes[..|nodes| - 1], |nodes| - 1;
      ConnectedCount(rest, id);
      assert forall k | 0 <= k < |rest| :: rest[k] == nodes[k];
      assert ConnectedTo(nodes, id) ==
             ConnectedTo(rest, id) + if nodes[e].masterID == id && nodes[e].connected then {e} else {};
    }
  }

  /** `ids` are the IDs of the pods of shard i that are in the index, by ascending ordinal: `at` has the ordinals. */
  ghost predicate IdsAt(
    byHost: map<string, NodeInfo>, cr: ValkeyCluster, i: nat, k: nat, ids: seq<string>, at: seq<int>)
  {
    && |at| == |ids| && Increasing(at) && (forall j | j in at :: 0 <= j < k)
    && (forall l | 0 <= l < |at| ::
          0 <= at[l] && PodFQDN(cr, i, at[l]) in byHost && ids[l] == byHost[PodFQDN(cr, i, at[l])].id)
    && forall j: nat | j < k :: j in at <==> PodFQDN(cr, i, j) in byHost
  }

  lemma {:induction false} ShardIDsAre(byHost: map<string, NodeInfo>, cr: ValkeyCluster, i: nat, k: nat)
    returns (at: seq<int>)
    ensures IdsAt(byHost, cr, i, k, ShardIDs(byHost, cr, i, k), at)
  {
    hide PodFQDN, IdsAt;
    at := [];
    if k == 0 {
      NoIds(byHost, cr, i);
    } else {
      at := ShardIDsAre(byHost, cr, i, k - 1);
      var ids := ShardIDs(byHost, cr, i, k - 1);
      if PodFQDN(cr, i, k - 1) in byHost {
        IdsMore(byHost, cr, i, k - 1, ids, at);
        at := at + [k - 1];
      } else {
        IdsSame(byHost, cr, i, k - 1, ids, at);
        assert ids + [] == ids;
      }
    }
  }

  lemma NoIds(byHost: map<string, NodeInfo>, cr: ValkeyCluster, i: nat)
    ensures IdsAt(byHost, cr, i, 0, [], [])
  {
  }

  lemma IdsSame(byHost: map<string, NodeInfo>, cr: ValkeyCluster, i: nat, k: nat, ids: seq<string>, at: seq<int>)
    requires IdsAt(byHost, cr, i, k, ids, at) && PodFQDN(cr, i, k) !in byHost
    ensures IdsAt(byHost, cr, i, k + 1, ids, at)
  {
    hide PodFQDN;
  }

  lemma IdsMore(byHost: map<string, NodeInfo>, cr: ValkeyCluster, i: nat, k: nat, ids: seq<string>, at: seq<int>)
    requires IdsAt(byHost, cr, i, k, ids, at) && PodFQDN(cr, i, k) in byHost
    ensures IdsAt(byHost, cr, i, k + 1, ids + [byHost[PodFQDN(cr, i, k)].id], at + [k])
  {
    hide PodFQDN;
    var more := at + [k];
    assert forall j :: j in more <==> j in at || j == k;
    assert forall l | 0 <= l < |at| :: at[l] in at;
  }

  /** Entry e is the slot-owning pod of shard i with the highest ordinal below k, which is j. */
  ghost predicate HighestOwner(cr: ValkeyCluster, nodes: seq<NodeInfo>, i: nat, k: nat, e: nat, j: nat) {
    && e < |nodes| && j < k && nodes[e].host == PodFQDN(cr, i, j) && nodes[e].OwnsSlots()
    && forall l: nat | j < l < k :: !PodOwns(cr, nodes, i, l)
  }

  lemma {:induction false} LastOwnerIs(cr: ValkeyCluster, nodes: seq<NodeInfo>, i: nat, k: nat)
    returns (e: nat, j: nat)
    requires DistinctHosts(nodes)
    ensures var o := LastOwner(HostIndex(nodes), cr, i, k);
            if o.Some? then HighestOwner(cr, nodes, i, k, e, j) && nodes[e] == o.value
            else forall l: nat | l < k :: !PodOwns(cr, nodes, i, l)
  {
    hide PodFQDN, NodeInfo.OwnsSlots, HostIndex, DistinctHosts, PodOwns;
    e, j := 0, 0;
    if k > 0 {
      var h := PodFQDN(cr, i, k - 1);
      PodOwnsIs(cr, nodes, i, k - 1);
      if h in HostIndex(nodes) && HostIndex(nodes)[h].OwnsSlots() {
        HostIndexFrom(nodes, h);
        e :| e < |nodes| && nodes[e].host == h && nodes[e] == HostIndex(nodes)[h];
        j := k - 1;
      } else {
        e, j := LastOwnerIs(cr, nodes, i, k - 1);
      }
    }
  }

  /** The entry shows node n: its pod and ID, its ranges as text, and how many connected nodes name it as master. */
  ghost predicate ShowsPrimary(entry: ShardStatus, nodes: seq<NodeInfo>, n: NodeInfo) {
    && entry.primaryNodeID == n.id && entry.primaryPod == PodNameFromHost(n.host)
    && entry.slots == JoinRanges(n.slots) && entry.readyReplicas == |ConnectedTo(nodes, n.id)|
  }

  predicate ShowsNoPrimary(entry: ShardStatus) {
    entry.primaryNodeID == "" && entry.primaryPod == "" && entry.slots == "" && entry.readyReplicas == 0
  }

  lemma EntryOfNone(cr: ValkeyCluster, nodes: seq<NodeInfo>, byHost: map<string, NodeInfo>, i: nat)
    requires LastOwner(byHost, cr, i, cr.replicas + 1).None?
    ensures ShowsNoPrimary(ShardEntry(cr, nodes, byHost, i))
  {
    hide LastOwner, ShardIDs;
  }

  lemma EntryOfOwner(cr: ValkeyCluster, nodes: seq<NodeInfo>, byHost: map<string, NodeInfo>, i: nat)
    requires LastOwner(byHost, cr, i, cr.replicas + 1).Some?
    ensures ShowsPrimary(ShardEntry(cr, nodes, byHost, i), nodes, LastOwner(byHost, cr, i, cr.replicas + 1).value)
  {
    hide LastOwner, ShardIDs, JoinRanges, PodNameFromHost, ConnectedTo, ConnectedReplicas;
    ConnectedCount(nodes, LastOwner(byHost, cr, i, cr.replicas + 1).value.id);
  }

  lemma EntryIDs(cr: ValkeyCluster, nodes: seq<NodeInfo>, byHost: map<string, NodeInfo>, i: nat)
    ensures ShardEntry(cr, nodes, byHost, i).index == i
    ensures ShardEntry(cr, nodes, byHost, i).nodeIDs == ShardIDs(byHost, cr, i, cr.replicas + 1)
  {
    hide LastOwner, ShardIDs, JoinRanges, PodNameFromHost, ConnectedReplicas;
  }

  /** What a shard's entry shows: the IDs of its listed pods by ordinal, and the slot-owning pod with the highest
      ordinal; no primary if none of its pods owns slots. */
  lemma EntryMeans(cr: ValkeyCluster, nodes: seq<NodeInfo>, i: nat) returns (at: seq<int>, e: nat, j: nat)
    requires DistinctHosts(nodes)
    ensures var entry := ShardEntry(cr, nodes, HostIndex(nodes), i);
            && entry.index == i && IdsAt(HostIndex(nodes), cr, i, cr.replicas + 1, entry.nodeIDs, at)
            && (|| (ShowsNoPrimary(entry) && forall l: nat | l <= cr.replicas :: !PodOwns(cr, nodes, i, l))
                || (HighestOwner(cr, nodes, i, cr.replicas + 1, e, j) && ShowsPrimary(entry, nodes, nodes[e])))
  {
    hide *;
    at := ShardIDsAre(HostIndex(nodes), cr, i, cr.replicas + 1);
    e, j := LastOwnerIs(cr, nodes, i, cr.replicas + 1);
    EntryIDs(cr, nodes, HostIndex(nodes), i);
    if LastOwner(HostIndex(nodes), cr, i, cr.replicas + 1).Some? {
      EntryOfOwner(cr, nodes, HostIndex(nodes), i);
      HighestThere(cr, nodes, i, cr.replicas + 1, e, j);
    } else {
      EntryOfNone(cr, nodes, HostIndex(nodes), i);
    }
  }

  lemma HighestThere(cr: ValkeyCluster, nodes: seq<NodeInfo>, i: nat, k: nat, e: nat, j: nat)
    requires HighestOwner(cr, nodes, i, k, e, j)
    ensures e < |nodes|
  {
  }

  lemma PrimaryPodIs(cr: ValkeyCluster, i: nat, j: nat)
    requires '.' !in cr.name
    ensures PodNameFromHost(PodFQDN(cr, i, j)) == PodName(cr, i, j)
  {
    var name, rest := PodName(cr, i, j), HeadlessServiceName(cr) + "." + cr.namespace + ".svc";
    PodNameHasNoDot(cr, i, j);
    CutAt(name, '.', rest);
    assert name + ['.'] + rest == name + "." + rest;
  }

  // ---- what the planner gets ----

  /** The listed replicas of `id`, by position. */
  function ReplicasAt(nodes: seq<NodeInfo>, id: string): set<nat> {
    set e: nat | e < |nodes| && !nodes[e].IsPrimary() && nodes[e].masterID != "" && nodes[e].masterID == id
  }

  lemma {:induction false} ReplicaCount(nodes: seq<NodeInfo>, id: string)
    ensures ReplicasOf(nodes, id) == |ReplicasAt(nodes, id)|
  {
    hide NodeInfo.IsPrimary;
    if nodes != [] {
      var rest, e := nodes[..|nodes| - 1], |nodes| - 1;
      ReplicaCount(rest, id);
      assert forall k | 0 <= k < |rest| :: rest[k] == nodes[k];
      assert ReplicasAt(nodes, id) ==
             ReplicasAt(rest, id)
             + if !nodes[e].IsPrimary() && nodes[e].masterID != "" && nodes[e].masterID == id then {e} else {};
    }
  }

  /** `counts` are the replica counts of the listed slot owners in listed order: `at` has their positions. */
  ghost predicate CountsAt(nodes: seq<NodeInfo>, all: seq<NodeInfo>, counts: seq<int>, at: seq<int>) {
    && |at| == |counts| && Increasing(at)
    && (forall k | 0 <= k < |at| :: 0 <= at[k] < |nodes| && counts[k] == |ReplicasAt(all, nodes[at[k]].id)|)
    && forall e | 0 <= e < |nodes| :: e in at <==> nodes[e].OwnsSlots()
  }

  lemma CountsNext(nodes: seq<NodeInfo>, all: seq<NodeInfo>, n: NodeInfo, counts: seq<int>, at: seq<int>)
    requires CountsAt(nodes, all, counts, at)
    ensures if n.OwnsSlots() then CountsAt(nodes + [n], all, counts + [|ReplicasAt(all, n.id)|], at + [|nodes|])
            else CountsAt(nodes + [n], all, counts, at)
  {
    hide NodeInfo.OwnsSlots, ReplicasAt;
    var more := nodes + [n];
    assert forall e | 0 <= e < |nodes| :: more[e] == nodes[e];
    assert more[|nodes|] == n && |nodes| !in at;
    if n.OwnsSlots() {
      var at' := at + [|nodes|];
      assert forall e :: e in at' <==> e in at || e == |nodes|;
    }
  }

  lemma {:induction false} OwnerReplicasAre(nodes: seq<NodeInfo>, all: seq<NodeInfo>) returns (at: seq<int>)
    ensures CountsAt(nodes, all, OwnerReplicas(nodes, all), at)
  {
    hide CountsAt, ReplicasAt, ReplicasOf, NodeInfo.OwnsSlots;
    at := [];
    if nodes == [] {
      NoCounts(all);
    } else {
      var rest, last := nodes[..|nodes| - 1], nodes[|nodes| - 1];
      at := OwnerReplicasAre(rest, all);
      CountsNext(rest, all, last, OwnerReplicas(rest, all), at);
      ReplicaCount(all, last.id);
      assert rest + [last] == nodes;
      assert OwnerReplicas(nodes, all) ==
             OwnerReplicas(rest, all) + if last.OwnsSlots() then [ReplicasOf(all, last.id)] else [];
      hide OwnerReplicas;
      if last.OwnsSlots() {
        at := at + [|rest|];
      } else {
        assert OwnerReplicas(rest, all) + [] == OwnerReplicas(rest, all);
      }
    }
  }

  lemma NoCounts(all: seq<NodeInfo>)
    ensures CountsAt([], all, [], [])
  {
  }

  /** What the planner decides on: formed as observed, covered and without open slots, as many primaries as listed slot
      owners, and for each of them in listed order how many listed replicas name it. */
  lemma SummaryMeans(st: ClusterState) returns (at: seq<int>)
    ensures var o := Summary(st);
            && o.formed == st.formed && (o.slotsCovered <==> st.slotsCovered && !st.openSlots)
            && o.primaryCount == |Owners(st.nodes)| && CountsAt(st.nodes, st.nodes, o.replicaCounts, at)
  {
    hide OwnerReplicas, Owners, CountOwners, CountsAt;
    at := OwnerReplicasAre(st.nodes, st.nodes);
    OwnerReplicasCounted(st.nodes, st.nodes);
    OwnersCounted(st.nodes);
  }
}
