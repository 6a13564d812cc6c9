/** What the operator reports, and what it feeds the planner, from one observed state. */
module Status {
  import opened Wrappers
  import opened Cluster
  import opened Names
  import opened Topology
  import opened Slots
  import opened Text

  // ---- summarize ----

  /** How many listed nodes are replicas of `id`. */
  function ReplicasOf(nodes: seq<NodeInfo>, id: string): nat {
    if nodes == [] then 0
    else
      var last := nodes[|nodes| - 1];
      ReplicasOf(nodes[..|nodes| - 1], id) +
        if !last.IsPrimary() && last.masterID != "" && last.masterID == id then 1 else 0
  }

  /** The replica count of every listed slot owner, counted over `all`. */
  function OwnerReplicas(nodes: seq<NodeInfo>, all: seq<NodeInfo>): seq<int> {
    if nodes == [] then []
    else
      var last := nodes[|nodes| - 1];
      OwnerReplicas(nodes[..|nodes| - 1], all) + if last.OwnsSlots() then [ReplicasOf(all, last.id)] else []
  }

  function Summary(st: ClusterState): Observed {
    var counts := OwnerReplicas(st.nodes, st.nodes);
    Observed(st.formed, st.slotsCovered && !st.openSlots, |counts|, counts)
  }

  /** Reduce a state to what the planner decides on; a shard is a master that owns slots. */
  method Summarize(st: ClusterState) returns (o: Observed)
    ensures o == Summary(st)
  {
    var replicas: map<string, nat> := map[];
    for i := 0 to |st.nodes|
      invariant forall id :: (if id in replicas then replicas[id] else 0) == ReplicasOf(st.nodes[..i], id)
    {
      var n := st.nodes[i];
      assert st.nodes[..i + 1][..i] == st.nodes[..i];
      if !n.IsPrimary() && n.masterID != "" {
        replicas := replicas[n.masterID := (if n.masterID in replicas then replicas[n.masterID] else 0) + 1];
      }
    }
    assert st.nodes[..|st.nodes|] == st.nodes;
    var primaries, counts := 0, [];
    for i := 0 to |st.nodes|
      invariant primaries == |counts|
      invariant counts == OwnerReplicas(st.nodes[..i], st.nodes)
    {
      var n := st.nodes[i];
      assert st.nodes[..i + 1][..i] == st.nodes[..i];
      if n.OwnsSlots() {
        primaries := primaries + 1;
        counts := counts + [if n.id in replicas then replicas[n.id] else 0];
      }
    }
    o := Observed(st.formed, st.slotsCovered && !st.openSlots, primaries, counts);
  }

  // ---- updateStatus ----

  datatype Phase = Ready | Resharding | Degraded

  datatype ShardStatus = ShardStatus(
    index: nat, nodeIDs: seq<string>, primaryPod: string, primaryNodeID: string, slots: string, readyReplicas: nat)

  datatype ClusterStatus = ClusterStatus(phase: Phase, readyShards: nat, shards: seq<ShardStatus>)

  /** `hostIndex`: a host listed twice keeps its last entry. */
  function HostIndex(nodes: seq<NodeInfo>): map<string, NodeInfo> {
    if nodes == [] then map[]
    else HostIndex(nodes[..|nodes| - 1])[nodes[|nodes| - 1].host := nodes[|nodes| - 1]]
  }

  /** The last of shard i's pods with an ordinal below k that owns slots. */
  function LastOwner(byHost: map<string, NodeInfo>, cr: ValkeyCluster, i: nat, k: nat): Option<NodeInfo> {
    if k == 0 then None
    else
      var h := PodFQDN(cr, i, k - 1);
      if h in byHost && byHost[h].OwnsSlots() then Some(byHost[h]) else LastOwner(byHost, cr, i, k - 1)
  }

  /** The node IDs of those pods of shard i that are listed. */
  function ShardIDs(byHost: map<string, NodeInfo>, cr: ValkeyCluster, i: nat, k: nat): seq<string> {
    if k == 0 then []
    else
      var h := PodFQDN(cr, i, k - 1);
      ShardIDs(byHost, cr, i, k - 1) + if h in byHost then [byHost[h].id] else []
  }

  function ConnectedReplicas(nodes: seq<NodeInfo>, id: string): nat {
    if nodes == [] then 0
    else
      var last := nodes[|nodes| - 1];
      ConnectedReplicas(nodes[..|nodes| - 1], id) + if last.masterID == id && last.connected then 1 else 0
  }

  /** `podNameFromHost`: the host up to its first dot. */
  function PodNameFromHost(h: string): string {
    match Cut(h, '.') case Some((name, _)) => name case None => h
  }

  function ShardEntry(cr: ValkeyCluster, nodes: seq<NodeInfo>, byHost: map<string, NodeInfo>, i: nat): ShardStatus {
    var ids := ShardIDs(byHost, cr, i, cr.replicas + 1);
    match LastOwner(byHost, cr, i, cr.replicas + 1)
    case None => ShardStatus(i, ids, "", "", "", 0)
    case Some(p) =>
      ShardStatus(i, ids, PodNameFromHost(p.host), p.id, JoinRanges(p.slots), ConnectedReplicas(nodes, p.id))
  }

  /** Shard i has a slot-owning pod. */
  predicate Serving(byHost: map<string, NodeInfo>, cr: ValkeyCluster, i: nat) {
    LastOwner(byHost, cr, i, cr.replicas + 1).Some?
  }

  /** How many of the first k shards have a slot-owning pod. */
  function ReadyShards(byHost: map<string, NodeInfo>, cr: ValkeyCluster, k: nat): nat {
    if k == 0 then 0
    else ReadyShards(byHost, cr, k - 1) + if Serving(byHost, cr, k - 1) then 1 else 0
  }

  function CountOwners(nodes: seq<NodeInfo>): nat {
    if nodes == [] then 0
    else CountOwners(nodes[..|nodes| - 1]) + if nodes[|nodes| - 1].OwnsSlots() then 1 else 0
  }

  /** The case updateStatus publishes. */
  datatype Case = AllReady | Removing | Migrating | NoPrimaries | Partial

  /** `updateStatus`'s switch, over the shards with an owner and all slot owners. */
  function CaseFor(ready: nat, actual: nat, desired: nat, covered: bool, open: bool): Case {
    if ready == desired && actual == desired && covered && !open then AllReady
    else if actual > desired && ready > 0 then Removing
    else if open && ready > 0 then Migrating
    else if ready == 0 then NoPrimaries
    else Partial
  }

  function CaseOf(cr: ValkeyCluster, st: ClusterState): Case {
    CaseFor(ReadyShards(HostIndex(st.nodes), cr, cr.shards), CountOwners(st.nodes), cr.shards,
            st.slotsCovered, st.openSlots)
  }

  function PhaseIn(c: Case): Phase {
    match c case AllReady => Ready case Removing | Migrating => Resharding case NoPrimaries | Partial => Degraded
  }

  /** The phase updateStatus publishes. */
  function PhaseOf(cr: ValkeyCluster, st: ClusterState): Phase {
    PhaseIn(CaseOf(cr, st))
  }

  method IndexByHost(nodes: seq<NodeInfo>) returns (m: map<string, NodeInfo>)
    ensures m == HostIndex(nodes)
  {
    m := map[];
    for i := 0 to |nodes|
      invariant m == HostIndex(nodes[..i])
    {
      assert nodes[..i + 1][..i] == nodes[..i];
      m := m[nodes[i].host := nodes[i]];
    }
    assert nodes[..|nodes|] == nodes;
  }

  /** The status is that of the observed state: phase, ready count and every shard's entry. */
  ghost predicate Tells(status: ClusterStatus, cr: ValkeyCluster, st: ClusterState) {
    && status.phase == PhaseOf(cr, st)
    && status.readyShards == ReadyShards(HostIndex(st.nodes), cr, cr.shards)
    && |status.shards| == cr.shards
    && forall i | 0 <= i < cr.shards :: status.shards[i] == ShardEntry(cr, st.nodes, HostIndex(st.nodes), i)
  }

  /** Compute the status to publish: the phase, and per shard its nodes, primary, slots and ready replicas. */
  method UpdateStatus(cr: ValkeyCluster, st: ClusterState) returns (status: ClusterStatus)
    ensures Tells(status, cr, st)
  {
    hide PodFQDN, CountRanges, HostIndex, Serving, ShardEntry;
    var byHost := IndexByHost(st.nodes);
    var ready: nat, shards: seq<ShardStatus> := 0, [];
    for i := 0 to cr.shards
      invariant |shards| == i && ready == ReadyShards(byHost, cr, i)
      invariant forall k | 0 <= k < i :: shards[k] == ShardEntry(cr, st.nodes, byHost, k)
    {
      var found, entry := ReportShard(cr, st.nodes, byHost, i);
      if found {
        ready := ready + 1;
      }
      shards := shards + [entry];
    }
    var actual := 0;
    for i := 0 to |st.nodes|
      invariant actual == CountOwners(st.nodes[..i])
    {
      assert st.nodes[..i + 1][..i] == st.nodes[..i];
      if st.nodes[i].OwnsSlots() {
        actual := actual + 1;
      }
    }
    assert st.nodes[..|st.nodes|] == st.nodes;
    var phase := PhaseIn(CaseFor(ready, actual, cr.shards, st.slotsCovered, st.openSlots));
    status := ClusterStatus(phase, ready, shards);
  }

  method CountConnected(nodes: seq<NodeInfo>, id: string) returns (count: nat)
    ensures count == ConnectedReplicas(nodes, id)
  {
    count := 0;
    for k := 0 to |nodes|
      invariant count == ConnectedReplicas(nodes[..k], id)
    {
      assert nodes[..k + 1][..k] == nodes[..k];
      if nodes[k].masterID == id && nodes[k].connected {
        count := count + 1;
      }
    }
    assert nodes[..|nodes|] == nodes;
  }

  /** One shard's entry, and whether it has a primary. */
  method ReportShard(cr: ValkeyCluster, nodes: seq<NodeInfo>, byHost: map<string, NodeInfo>, i: nat)
    returns (found: bool, entry: ShardStatus)
    ensures found <==> Serving(byHost, cr, i)
    ensures entry == ShardEntry(cr, nodes, byHost, i)
  {
    hide PodFQDN, CountRanges, JoinRanges, PodNameFromHost, ConnectedReplicas;
    var ids, primary: Option<NodeInfo> := [], None;
    for j := 0 to cr.replicas + 1
      invariant primary == LastOwner(byHost, cr, i, j) && ids == ShardIDs(byHost, cr, i, j)
    {
      var h := PodFQDN(cr, i, j);
      if h in byHost {
        ids := ids + [byHost[h].id];
        if byHost[h].OwnsSlots() {
          primary := Some(byHost[h]);
        }
      }
    }
    found := primary.Some?;
    entry := ShardStatus(i, ids, "", "", "", 0);
    if found {
      var p := primary.value;
      var replicas := CountConnected(nodes, p.id);
      var slots := FormatRanges(p.slots);
      entry := ShardStatus(i, ids, PodNameFromHost(p.host), p.id, slots, replicas);
    }
  }

  // ---- what Ready means ----

  /** The listed slot owners, by position. */
  function Owners(nodes: seq<NodeInfo>): set<nat> {
    set e: nat | e < |nodes| && nodes[e].OwnsSlots()
  }

  lemma {:induction false} OwnersCounted(nodes: seq<NodeInfo>)
    ensures |Owners(nodes)| == CountOwners(nodes)
  {
    if nodes != [] {
      var rest, e := nodes[..|nodes| - 1], |nodes| - 1;
      OwnersCounted(rest);
      assert forall k | 0 <= k < |rest| :: rest[k] == nodes[k];
      assert Owners(nodes) == Owners(rest) + if nodes[e].OwnsSlots() then {e} else {};
    }
  }

  /** Entry e is a slot owner among the declared pods of shard i. */
  ghost predicate OwnerIn(cr: ValkeyCluster, nodes: seq<NodeInfo>, e: nat, i: nat) {
    e < |nodes| && nodes[e].OwnsSlots() && OnPod(cr, nodes[e].host, i)
  }

  ghost predicate ShardServed(cr: ValkeyCluster, nodes: seq<NodeInfo>, i: nat) {
    exists e: nat :: OwnerIn(cr, nodes, e, i)
  }

  ghost predicate OnPod(cr: ValkeyCluster, h: string, i: nat) {
    exists j | 0 <= j <= cr.replicas :: h == PodFQDN(cr, i, j)
  }

  lemma OnOnePod(cr: ValkeyCluster, h: string, i: nat, i': nat)
    requires OnPod(cr, h, i) && OnPod(cr, h, i')
    ensures i == i'
  {
    hide PodFQDN;
  }

  lemma OneShard(cr: ValkeyCluster, nodes: seq<NodeInfo>, e: nat, i: nat, i': nat)
    requires OwnerIn(cr, nodes, e, i) && OwnerIn(cr, nodes, e, i')
    ensures i == i'
  {
    OnOnePod(cr, nodes[e].host, i, i');
  }

  lemma IsOwner(cr: ValkeyCluster, nodes: seq<NodeInfo>, e: nat, i: nat)
    requires OwnerIn(cr, nodes, e, i)
    ensures e in Owners(nodes)
  {
  }

  lemma {:induction false} HostIndexFrom(nodes: seq<NodeInfo>, h: string)
    requires h in HostIndex(nodes)
    ensures exists e: nat :: e < |nodes| && nodes[e].host == h && nodes[e] == HostIndex(nodes)[h]
  {
    var rest, last := nodes[..|nodes| - 1], nodes[|nodes| - 1];
    if last.host != h {
      HostIndexFrom(rest, h);
      var e: nat :| e < |rest| && rest[e].host == h && rest[e] == HostIndex(rest)[h];
      assert nodes[e] == rest[e];
    }
  }

  lemma {:induction false} OwnerListed(cr: ValkeyCluster, nodes: seq<NodeInfo>, i: nat, k: nat)
    requires LastOwner(HostIndex(nodes), cr, i, k).Some? && k <= cr.replicas + 1
    ensures ShardServed(cr, nodes, i)
  {
    hide PodFQDN, CountRanges, HostIndex;
    var h := PodFQDN(cr, i, k - 1);
    if h in HostIndex(nodes) && HostIndex(nodes)[h].OwnsSlots() {
      HostIndexFrom(nodes, h);
      var e: nat :| e < |nodes| && nodes[e].host == h && nodes[e] == HostIndex(nodes)[h];
      assert OnPod(cr, nodes[e].host, i);
      assert OwnerIn(cr, nodes, e, i);
    } else {
      OwnerListed(cr, nodes, i, k - 1);
    }
  }

  lemma {:induction false} EveryShardReady(byHost: map<string, NodeInfo>, cr: ValkeyCluster, k: nat)
    ensures ReadyShards(byHost, cr, k) <= k
    ensures ReadyShards(byHost, cr, k) == k <==> forall i: nat | i < k :: Serving(byHost, cr, i)
  {
    hide Serving;
    if k > 0 {
      EveryShardReady(byHost, cr, k - 1);
    }
  }

  /** A slot owner of shard i. */
  ghost function Pick(cr: ValkeyCluster, nodes: seq<NodeInfo>, i: nat): (e: nat)
    requires ShardServed(cr, nodes, i)
    ensures OwnerIn(cr, nodes, e, i)
  {
    var e: nat :| OwnerIn(cr, nodes, e, i);
    e
  }

  /** One owner for each of k shards: k owners in all. */
  lemma {:induction false} Picks(cr: ValkeyCluster, nodes: seq<NodeInfo>, k: nat) returns (picked: set<nat>)
    requires forall i: nat | i < k :: ShardServed(cr, nodes, i)
    ensures picked <= Owners(nodes) && |picked| == k
    ensures forall e | e in picked :: exists i: nat :: i < k && OwnerIn(cr, nodes, e, i) && e == Pick(cr, nodes, i)
  {
    hide OwnerIn;
    if k == 0 {
      picked := {};
    } else {
      var rest := Picks(cr, nodes, k - 1);
      var e := Pick(cr, nodes, k - 1);
      if e in rest {
        var i: nat :| i < k - 1 && OwnerIn(cr, nodes, e, i);
        OneShard(cr, nodes, e, i, k - 1);
      }
      IsOwner(cr, nodes, e, k - 1);
      picked := rest + {e};
    }
  }

  /** Ready is a bijection: every declared shard has exactly one slot-owning primary among its pods, and
      every slot-owning primary of the cluster is one of those. */
  lemma ReadyIsBijection(cr: ValkeyCluster, st: ClusterState)
    requires PhaseOf(cr, st) == Ready
    ensures forall i: nat | i < cr.shards :: ShardServed(cr, st.nodes, i)
    ensures forall i: nat, e: nat, e': nat | OwnerIn(cr, st.nodes, e, i) && OwnerIn(cr, st.nodes, e', i) :: e == e'
    ensures forall e: nat | e < |st.nodes| && st.nodes[e].OwnsSlots() ::
              exists i: nat :: i < cr.shards && OwnerIn(cr, st.nodes, e, i)
  {
    var nodes, byHost := st.nodes, HostIndex(st.nodes);
    EveryShardReady(byHost, cr, cr.shards);
    hide CountRanges, PodFQDN, LastOwner, ReadyShards, HostIndex, OwnerIn;
    forall i: nat | i < cr.shards
      ensures ShardServed(cr, nodes, i)
    {
      assert Serving(byHost, cr, i);
      OwnerListed(cr, nodes, i, cr.replicas + 1);
    }
    var picked := Picks(cr, nodes, cr.shards);
    OwnersCounted(nodes);
    FullSubset(picked, Owners(nodes));
    forall i: nat, e: nat, e': nat | OwnerIn(cr, nodes, e, i) && OwnerIn(cr, nodes, e', i)
      ensures e == e'
    {
      IsOwner(cr, nodes, e, i);
      IsOwner(cr, nodes, e', i);
      var k: nat :| k < cr.shards && OwnerIn(cr, nodes, e, k) && e == Pick(cr, nodes, k);
      var k': nat :| k' < cr.shards && OwnerIn(cr, nodes, e', k') && e' == Pick(cr, nodes, k');
      OneShard(cr, nodes, e, i, k);
      OneShard(cr, nodes, e', i, k');
    }
    forall e: nat | e < |nodes| && nodes[e].OwnsSlots()
      ensures exists i: nat :: i < cr.shards && OwnerIn(cr, nodes, e, i)
    {
      assert e in Owners(nodes) && e in picked;
    }
  }

  // ---- status and planner agree ----

  lemma {:induction false} OwnerReplicasCounted(nodes: seq<NodeInfo>, all: seq<NodeInfo>)
    ensures |OwnerReplicas(nodes, all)| == CountOwners(nodes)
  {
    if nodes != [] {
      OwnerReplicasCounted(nodes[..|nodes| - 1], all);
    }
  }

  function DesiredOf(cr: ValkeyCluster): Desired {
    Desired(cr.shards, cr.replicas)
  }

  /** A state that is covered is formed: both observers see to it. */
  predicate Coherent(st: ClusterState) {
    st.slotsCovered ==> st.formed
  }

  /** When the status says Ready, the planner has nothing to do but adjust replicas. */
  lemma ReadyNeedsNoReshape(cr: ValkeyCluster, st: ClusterState)
    requires Coherent(st) && PhaseOf(cr, st) == Ready
    ensures var plan := Decide(DesiredOf(cr), Summary(st)); plan.NoAction? || plan.ScaleReplicas?
  {
    OwnerReplicasCounted(st.nodes, st.nodes);
  }

  /** The slot owners sit on declared pods, at most one per shard, and no host is listed twice. */
  ghost predicate WellPlaced(cr: ValkeyCluster, nodes: seq<NodeInfo>) {
    && (forall e: nat | e < |nodes| && nodes[e].OwnsSlots() ::
          exists i: nat :: i < cr.shards && OwnerIn(cr, nodes, e, i))
    && (forall i: nat, e: nat, e': nat | OwnerIn(cr, nodes, e, i) && OwnerIn(cr, nodes, e', i) :: e == e')
    && (forall e: nat, e': nat | e < e' < |nodes| :: nodes[e].host != nodes[e'].host)
  }

  /** The shards of a set of owners: as many as owners. */
  lemma {:induction false} ShardsOf(cr: ValkeyCluster, nodes: seq<NodeInfo>, owners: set<nat>)
    returns (shards: set<nat>)
    requires WellPlaced(cr, nodes) && owners <= Owners(nodes)
    ensures |shards| == |owners|
    ensures forall i | i in shards :: i < cr.shards && exists e | e in owners :: OwnerIn(cr, nodes, e, i)
    decreases owners
  {
    hide OwnerIn, CountRanges;
    if e: nat :| e in owners {
      var rest := ShardsOf(cr, nodes, owners - {e});
      var i: nat :| i < cr.shards && OwnerIn(cr, nodes, e, i);
      shards := rest + {i};
    } else {
      shards := {};
    }
  }

  function Below(n: nat): set<nat> {
    if n == 0 then {} else Below(n - 1) + {n - 1}
  }

  lemma {:induction false} BelowIs(n: nat)
    ensures |Below(n)| == n
    ensures forall i: nat :: i in Below(n) <==> i < n
  {
    if n > 0 {
      BelowIs(n - 1);
    }
  }

  lemma {:induction false} HostIndexHas(nodes: seq<NodeInfo>, e: nat)
    requires e < |nodes| && forall k: nat | e < k < |nodes| :: nodes[k].host != nodes[e].host
    ensures nodes[e].host in HostIndex(nodes) && HostIndex(nodes)[nodes[e].host] == nodes[e]
  {
    if e < |nodes| - 1 {
      HostIndexHas(nodes[..|nodes| - 1], e);
    }
  }

  lemma {:induction false} OwnerServes(byHost: map<string, NodeInfo>, cr: ValkeyCluster, i: nat, j: nat, k: nat)
    requires j < k && PodFQDN(cr, i, j) in byHost && byHost[PodFQDN(cr, i, j)].OwnsSlots()
    ensures LastOwner(byHost, cr, i, k).Some?
  {
    hide PodFQDN, CountRanges;
    if j < k - 1 {
      OwnerServes(byHost, cr, i, j, k - 1);
    }
  }

  /** Where owners are well placed, a planner with nothing to do means Ready. */
  lemma NoActionIsReady(cr: ValkeyCluster, st: ClusterState)
    requires WellPlaced(cr, st.nodes) && Decide(DesiredOf(cr), Summary(st)).NoAction?
    ensures PhaseOf(cr, st) == Ready
  {
    var nodes, byHost := st.nodes, HostIndex(st.nodes);
    OwnerReplicasCounted(nodes, nodes);
    OwnersCounted(nodes);
    var shards := ShardsOf(cr, nodes, Owners(nodes));
    BelowIs(cr.shards);
    FullSubset(shards, Below(cr.shards));
    forall i: nat | i < cr.shards
      ensures Serving(byHost, cr, i)
    {
      assert i in Below(cr.shards) && i in shards;
      var e: nat :| e in Owners(nodes) && OwnerIn(cr, nodes, e, i);
      OwnerIsServing(cr, nodes, e, i);
    }
    EveryShardReady(byHost, cr, cr.shards);
  }

  lemma OwnerIsServing(cr: ValkeyCluster, nodes: seq<NodeInfo>, e: nat, i: nat)
    requires WellPlaced(cr, nodes) && OwnerIn(cr, nodes, e, i)
    ensures Serving(HostIndex(nodes), cr, i)
  {
    hide PodFQDN, NodeInfo.OwnsSlots, HostIndex, LastOwner;
    HostIndexHas(nodes, e);
    var j :| 0 <= j <= cr.replicas && nodes[e].host == PodFQDN(cr, i, j);
    OwnerServes(HostIndex(nodes), cr, i, j, cr.replicas + 1);
  }
}
