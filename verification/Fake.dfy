/** The in-memory cluster admin: nodes keyed by host, which is also their ID. */
module Fake {
  import opened Cluster
  import opened Slots

  const CLIENT_PORT: int := 6379

  type Nodes = map<string, NodeInfo>

  /** A node nobody has seen before: an empty master. */
  function Fresh(h: string): NodeInfo {
    NodeInfo(h, h, "", CLIENT_PORT, ["master"], "", [], true)
  }

  function Ensure(ns: Nodes, h: string): Nodes {
    if h in ns then ns else ns[h := Fresh(h)]
  }

  /** A slot count as the fake records it. */
  function CountToRanges(count: int): seq<SlotRange> {
    if count <= 0 then [] else [SlotRange(0, count - 1)]
  }

  function AsReplica(n: NodeInfo, primary: string): NodeInfo {
    n.(masterID := primary, flags := ["slave"], slots := [])
  }

  function WithSlots(n: NodeInfo, count: int): NodeInfo {
    n.(slots := CountToRanges(count))
  }

  function AsMaster(n: NodeInfo): NodeInfo {
    n.(masterID := "", flags := ["master"])
  }

  function Replicated(ns: Nodes, h: string, primary: string): Nodes {
    var ns1 := Ensure(ns, h);
    ns1[h := AsReplica(ns1[h], primary)]
  }

  function SlotsAdded(ns: Nodes, h: string, ranges: seq<SlotRange>): Nodes {
    var ns1 := Ensure(ns, h);
    ns1[h := AsMaster(ns1[h]).(slots := ns1[h].slots + ranges)]
  }

  lemma {:induction false} CountRangesConcat(a: seq<SlotRange>, b: seq<SlotRange>)
    ensures CountRanges(a + b) == CountRanges(a) + CountRanges(b)
  {
    if a == [] {
      assert a + b == b;
    } else {
      assert (a + b)[1..] == a[1..] + b;
      CountRangesConcat(a[1..], b);
    }
  }

  /** The node is a master that has gained exactly the ranges; nobody else has changed. */
  lemma AddedIs(ns: Nodes, h: string, ranges: seq<SlotRange>)
    ensures var after, had := SlotsAdded(ns, h, ranges), if h in ns then ns[h].SlotCount() else 0;
            && after.Keys == ns.Keys + {h} && after[h].IsPrimary() && after[h].masterID == ""
            && after[h].SlotCount() == had + CountRanges(ranges)
            && forall g | g in ns && g != h :: after[g] == ns[g]
  {
    CountRangesConcat(Ensure(ns, h)[h].slots, ranges);
  }

  /** How many slots a move of up to n takes from the node. */
  function Takes(n: NodeInfo, want: int): int {
    if n.SlotCount() < want then n.SlotCount() else want
  }

  function SlotsMoved(ns: Nodes, from: string, to: string, n: int): Nodes {
    if from !in ns || to !in ns then ns
    else
      var moved := Takes(ns[from], n);
      var ns1 := ns[from := WithSlots(ns[from], ns[from].SlotCount() - moved)];
      ns1[to := WithSlots(AsMaster(ns1[to]), ns1[to].SlotCount() + moved)]
  }

  /** The replica takes its master's slots and they swap roles. */
  function FailedOver(ns: Nodes, h: string): Nodes {
    if h !in ns || ns[h].masterID == "" || ns[h].masterID !in ns then ns
    else
      var m := ns[h].masterID;
      ns[h := AsMaster(ns[h]).(slots := ns[m].slots)][m := AsReplica(ns[m], h)]
  }

  // ---- well-formed nodes ----

  /** A master, or a replica of somebody without slots. */
  predicate Proper(n: NodeInfo) {
    || (n.flags == ["master"] && n.masterID == "" && n.SlotCount() >= 0)
    || (n.flags == ["slave"] && n.masterID != "" && n.slots == [])
  }

  ghost predicate AllProper(ns: Nodes) {
    forall h | h in ns :: ns[h].id == h && ns[h].host == h && Proper(ns[h])
  }

  lemma ProperNode(n: NodeInfo)
    requires Proper(n)
    ensures n.IsPrimary() <==> n.masterID == ""
    ensures n.SlotCount() >= 0 && (!n.IsPrimary() ==> n.SlotCount() == 0)
    ensures n.OwnsSlots() <==> n.SlotCount() > 0
  {
    assert "slave" != "master" by { assert "slave"[0] != "master"[0]; }
  }

  lemma ReplicatedProper(ns: Nodes, h: string, primary: string)
    requires AllProper(ns) && primary != ""
    ensures AllProper(Replicated(ns, h, primary))
  {
  }

  lemma CountOfCount(count: int)
    ensures CountRanges(CountToRanges(count)) == if count <= 0 then 0 else count
  {
    if count > 0 {
      assert CountRanges([SlotRange(0, count - 1)]) == count + CountRanges([]);
    }
  }

  /** The fake knows how many slots a node has and not which: it shows the lowest. */
  lemma CountToRangesIs(count: int, s: int)
    ensures Covers(CountToRanges(count), s) <==> 0 <= s < count
  {
    if count > 0 {
      assert CountToRanges(count)[0] == SlotRange(0, count - 1);
    }
  }

  /** Every node is up: connected, on the client port, without an IP address. */
  ghost predicate AllUp(ns: Nodes) {
    forall h | h in ns :: ns[h].connected && ns[h].port == CLIENT_PORT && ns[h].ip == ""
  }

  /** No command takes a node down. */
  lemma StaysUp(ns: Nodes, h: string, g: string, ranges: seq<SlotRange>, n: int)
    requires AllUp(ns)
    ensures AllUp(Ensure(ns, h)) && AllUp(Ensure(Ensure(ns, g), h)) && AllUp(ns - {h})
    ensures AllUp(Replicated(ns, h, g)) && AllUp(FailedOver(ns, h))
    ensures AllUp(SlotsAdded(ns, h, ranges)) && AllUp(SlotsMoved(ns, g, h, n))
  {
    hide CountRanges;
  }

  // ---- totals ----

  /** All slots assigned to nodes. */
  ghost function Total(ns: Nodes): int
    decreases |ns|
  {
    if ns == map[] then 0
    else
      var h :| h in ns;
      ns[h].SlotCount() + Total(ns - {h})
  }

  lemma {:induction false} TotalSplit(ns: Nodes, h: string)
    requires h in ns
    ensures Total(ns) == ns[h].SlotCount() + Total(ns - {h})
    decreases |ns|
  {
    var k: string :| k in ns && Total(ns) == ns[k].SlotCount() + Total(ns - {k});
    if k != h {
      TotalSplit(ns - {k}, h);
      TotalSplit(ns - {h}, k);
      assert ns - {k} - {h} == ns - {h} - {k};
    }
  }

  lemma TotalUpdate(ns: Nodes, h: string, n: NodeInfo)
    ensures Total(ns[h := n]) == Total(ns) + n.SlotCount() - if h in ns then ns[h].SlotCount() else 0
  {
    var ns' := ns[h := n];
    TotalSplit(ns', h);
    assert ns' - {h} == ns - {h};
    if h in ns {
      TotalSplit(ns, h);
    } else {
      assert ns - {h} == ns;
    }
  }

  /** The nodes' slots cannot exceed what each of them may hold. */
  lemma {:induction false} TotalBound(ns: Nodes, owners: set<string>, most: int)
    requires most >= 0
    requires forall h | h in ns :: ns[h].SlotCount() <= if h in owners then most else 0
    ensures Total(ns) <= |owners| * most
    decreases |owners|
  {
    hide Total, CountRanges;
    if h :| h in owners && h in ns {
      TotalSplit(ns, h);
      var ns', rest := ns - {h}, owners - {h};
      assert forall k | k in ns' :: k in ns && ns'[k] == ns[k];
      TotalBound(ns', rest, most);
      assert |owners| == |rest| + 1;
      TimesSucc(|rest|, most);
    } else {
      NoSlots(ns);
      TimesPositive(|owners|, most);
    }
  }

  lemma TimesSucc(k: nat, m: int)
    ensures (k + 1) * m == k * m + m
  {
  }

  lemma TimesPositive(k: nat, m: int)
    requires m >= 0
    ensures k * m >= 0
  {
  }

  lemma {:induction false} NoSlots(ns: Nodes)
    requires forall h | h in ns :: ns[h].SlotCount() <= 0
    ensures Total(ns) <= 0
    decreases |ns|
  {
    if h :| h in ns {
      TotalSplit(ns, h);
      NoSlots(ns - {h});
    }
  }

  lemma {:induction false} TotalPositive(ns: Nodes)
    requires AllProper(ns)
    ensures Total(ns) >= 0
    decreases |ns|
  {
    hide Total, CountRanges, Proper;
    if h :| h in ns {
      TotalSplit(ns, h);
      ProperNode(ns[h]);
      TotalPositive(ns - {h});
    } else {
      assert ns == map[];
      EmptyTotal();
    }
  }

  /** If no node has more slots than before, they have no more together. */
  lemma {:induction false} TotalNoMore(after: Nodes, ns: Nodes)
    requires AllProper(ns) && forall h | h in after :: after[h].SlotCount() <= if h in ns then ns[h].SlotCount() else 0
    ensures Total(after) <= Total(ns)
    decreases |after|
  {
    hide Total, CountRanges, Proper;
    if h :| h in after {
      TotalSplit(after, h);
      if h in ns {
        TotalSplit(ns, h);
        TotalNoMore(after - {h}, ns - {h});
      } else {
        TotalNoMore(after - {h}, ns);
      }
    } else {
      assert after == map[];
      EmptyTotal();
      TotalPositive(ns);
    }
  }

  /** The IDs listed. */
  function Ids(nodes: seq<NodeInfo>): set<string> {
    set i | 0 <= i < |nodes| :: nodes[i].id
  }

  /** The nodes listed are exactly the fake's, each once. */
  ghost predicate Lists(nodes: seq<NodeInfo>, ns: Nodes) {
    && (forall i, j | 0 <= i < j < |nodes| :: nodes[i].id != nodes[j].id)
    && (forall i | 0 <= i < |nodes| :: nodes[i].id in ns && ns[nodes[i].id] == nodes[i])
    && Ids(nodes) == ns.Keys
  }

  lemma IdsAppend(nodes: seq<NodeInfo>, n: NodeInfo)
    ensures Ids(nodes + [n]) == Ids(nodes) + {n.id}
  {
    var all := nodes + [n];
    assert forall i | 0 <= i < |nodes| :: all[i] == nodes[i];
    assert all[|nodes|] == n;
    assert forall i | 0 <= i < |all| :: i < |nodes| || all[i] == n;
  }

  lemma ListsOneMore(nodes: seq<NodeInfo>, ns: Nodes, h: string, n: NodeInfo)
    requires Lists(nodes, ns) && h !in ns && n.id == h
    ensures Lists(nodes + [n], ns[h := n])
  {
    IdsAppend(nodes, n);
    var all := nodes + [n];
    assert forall i | 0 <= i < |nodes| :: nodes[i].id in ns;
    hide Ids;
  }

  ghost predicate Observes(st: ClusterState, ns: Nodes) {
    && Lists(st.nodes, ns)
    && (st.formed <==> Total(ns) > 0)
    && (st.slotsCovered <==> Total(ns) == TOTAL_SLOTS)
    && !st.openSlots
  }

  /** All nodes but those in `rest` have been listed and counted. */
  ghost predicate Counted(listed: seq<NodeInfo>, total: int, ns: Nodes, rest: set<string>) {
    Lists(listed, ns - rest) && total == Total(ns - rest)
  }

  lemma CountedNone(ns: Nodes)
    ensures Counted([], 0, ns, ns.Keys)
  {
    assert ns - ns.Keys == map[];
  }

  lemma CountedNext(listed: seq<NodeInfo>, total: int, ns: Nodes, rest: set<string>, h: string)
    requires AllProper(ns) && Counted(listed, total, ns, rest) && h in rest && h in ns
    ensures Counted(listed + [ns[h]], total + ns[h].SlotCount(), ns, rest - {h})
  {
    var seen := ns - rest;
    ListsOneMore(listed, seen, h, ns[h]);
    TotalUpdate(seen, h, ns[h]);
    assert ns - (rest - {h}) == seen[h := ns[h]];
  }

  lemma CountedAll(listed: seq<NodeInfo>, total: int, ns: Nodes)
    requires Counted(listed, total, ns, {})
    ensures Observes(ClusterState(ns != map[] && total > 0, total == TOTAL_SLOTS, false, listed), ns)
  {
    assert ns - {} == ns;
  }

  // ---- the even re-split ----

  function Cleared(ns: Nodes): Nodes {
    map h | h in ns :: ns[h].(slots := [])
  }

  /** The first i targets have their share of the whole slot space, and nobody else owns a slot. */
  ghost predicate Rebalanced(ns: Nodes, after: Nodes, targets: seq<string>, i: nat) {
    && i <= |targets| && after.Keys == ns.Keys && (|targets| > 0 ==> Total(after) == Start(i, |targets|))
    && (forall h | h in ns && h !in targets[..i] :: after[h] == ns[h].(slots := []))
    && (forall j | 0 <= j < i ::
          targets[j] in ns && after[targets[j]] == ns[targets[j]].(slots := [Share(j, |targets|)]))
  }

  lemma {:induction false} ClearedTotal(ns: Nodes)
    ensures Total(Cleared(ns)) == 0
    decreases |ns|
  {
    hide Total;
    if h :| h in ns {
      TotalSplit(Cleared(ns), h);
      ClearedTotal(ns - {h});
      assert Cleared(ns) - {h} == Cleared(ns - {h});
    } else {
      assert Cleared(ns) == map[];
      EmptyTotal();
    }
  }

  lemma EmptyTotal()
    ensures Total(map[]) == 0
  {
  }

  lemma RebalanceNext(ns: Nodes, now: Nodes, targets: seq<string>, i: nat)
    requires Rebalanced(ns, now, targets, i) && i < |targets| && targets[i] in ns
    requires forall a, b | 0 <= a < b < |targets| :: targets[a] != targets[b]
    ensures targets[i] in now
    ensures Rebalanced(ns, now[targets[i] := now[targets[i]].(slots := [Share(i, |targets|)])], targets, i + 1)
  {
    hide Total, CountRanges, Start, Share;
    var h, k := targets[i], |targets|;
    assert targets[..i + 1] == targets[..i] + [h];
    assert h !in targets[..i];
    var n := now[h].(slots := [Share(i, k)]);
    OneShare(i, k);
    TotalUpdate(now, h, n);
  }

  lemma RebalanceStart(ns: Nodes, targets: seq<string>)
    ensures Rebalanced(ns, Cleared(ns), targets, 0)
  {
    hide Total;
    ClearedTotal(ns);
  }

  lemma RebalanceEnd(ns: Nodes, after: Nodes, targets: seq<string>)
    requires targets != [] && Rebalanced(ns, after, targets, |targets|)
    ensures Total(after) == TOTAL_SLOTS
  {
    hide Total, Start;
    StartOfAll(|targets|);
  }

  lemma ShareSpelled(i: nat, k: nat)
    requires k > 0
    ensures Share(i, k) == SlotRange(i * TOTAL_SLOTS / k, (i + 1) * TOTAL_SLOTS / k - 1)
  {
  }

  lemma OneShare(i: nat, k: nat)
    requires k > 0
    ensures CountRanges([Share(i, k)]) == Start(i + 1, k) - Start(i, k) && CountRanges([]) == 0
  {
  }

  class FakeCluster {
    var nodes: Nodes

    constructor ()
      ensures nodes == map[]
    {
      nodes := map[];
    }

    /** The current view. */
    method State() returns (st: ClusterState)
      requires AllProper(nodes)
      ensures Observes(st, nodes)
    {
      var listed, total, rest := [], 0, nodes.Keys;
      CountedNone(nodes);
      while rest != {}
        invariant rest <= nodes.Keys && Counted(listed, total, nodes, rest)
        decreases |rest|
      {
        hide Counted, AllProper, CountRanges;
        var h: string :| h in rest;
        CountedNext(listed, total, nodes, rest, h);
        var count := SumRanges(nodes[h].slots);
        listed, total, rest := listed + [nodes[h]], total + count, rest - {h};
      }
      CountedAll(listed, total, nodes);
      st := ClusterState(nodes != map[] && total > 0, total == TOTAL_SLOTS, false, listed);
    }

    /** The node ID at a host, creating the node if unseen. */
    method MyID(h: string) returns (id: string)
      requires AllProper(nodes)
      modifies this
      ensures nodes == Ensure(old(nodes), h) && id == h && AllProper(nodes)
    {
      nodes := Ensure(nodes, h);
      id := nodes[h].id;
    }

    method Meet(from: string, target: string)
      requires AllProper(nodes)
      modifies this
      ensures nodes == Ensure(Ensure(old(nodes), from), target) && AllProper(nodes)
    {
      nodes := Ensure(nodes, from);
      nodes := Ensure(nodes, target);
    }

    method AddSlots(h: string, ranges: seq<SlotRange>)
      modifies this
      ensures nodes == SlotsAdded(old(nodes), h, ranges)
    {
      nodes := Ensure(nodes, h);
      var n := nodes[h];
      nodes := nodes[h := n.(masterID := "", flags := ["master"], slots := n.slots + ranges)];
    }

    method Replicate(h: string, primary: string)
      modifies this
      ensures nodes == Replicated(old(nodes), h, primary)
    {
      nodes := Ensure(nodes, h);
      nodes := nodes[h := nodes[h].(masterID := primary, flags := ["slave"], slots := [])];
    }

    method Forget(id: string)
      modifies this
      ensures nodes == old(nodes) - {id}
    {
      nodes := nodes - {id};
    }

    method Failover(h: string)
      modifies this
      ensures nodes == FailedOver(old(nodes), h)
    {
      if h !in nodes || nodes[h].masterID == "" {
        return;
      }
      var m := nodes[h].masterID;
      if m !in nodes {
        return;
      }
      var slots := nodes[m].slots;
      nodes := nodes[h := nodes[h].(slots := slots, masterID := "", flags := ["master"])];
      nodes := nodes[m := nodes[m].(slots := [], masterID := h, flags := ["slave"])];
    }

    /** The masters not excluded, in some order. */
    method PrimaryIDs(excluded: set<string>) returns (ids: seq<string>)
      ensures forall h :: h in ids <==> h in nodes && nodes[h].IsPrimary() && h !in excluded
      ensures forall a, b | 0 <= a < b < |ids| :: ids[a] != ids[b]
    {
      ids := [];
      var rest := nodes.Keys;
      while rest != {}
        invariant rest <= nodes.Keys
        invariant forall h :: h in ids <==> h in nodes && h !in rest && nodes[h].IsPrimary() && h !in excluded
        invariant forall a, b | 0 <= a < b < |ids| :: ids[a] != ids[b]
        decreases |rest|
      {
        var h: string :| h in rest;
        rest := rest - {h};
        if nodes[h].IsPrimary() && h !in excluded {
          ids := ids + [h];
        }
      }
    }

    /** Split all slots evenly across the masters that are not excluded, as a fresh cluster would be split. */
    method Rebalance(excluded: set<string>) returns (targets: seq<string>)
      modifies this
      ensures forall h :: h in targets <==> h in old(nodes) && old(nodes)[h].IsPrimary() && h !in excluded
      ensures targets == [] ==> nodes == old(nodes)
      ensures targets != [] ==> Rebalanced(old(nodes), nodes, targets, |targets|) && Total(nodes) == TOTAL_SLOTS
    {
      hide Total, NodeInfo.IsPrimary, CountRanges, Rebalanced, Cleared, Start, Share;
      targets := PrimaryIDs(excluded);
      if |targets| == 0 {
        return;
      }
      ghost var ns := nodes;
      nodes := Cleared(nodes);
      RebalanceStart(ns, targets);
      var k := |targets|;
      for i := 0 to k
        invariant Rebalanced(ns, nodes, targets, i)
      {
        assert targets[i] in targets;
        RebalanceNext(ns, nodes, targets, i);
        ShareSpelled(i, k);
        var share := SlotRange(i * TOTAL_SLOTS / k, (i + 1) * TOTAL_SLOTS / k - 1);
        nodes := nodes[targets[i] := nodes[targets[i]].(slots := [share])];
      }
      RebalanceEnd(ns, nodes, targets);
    }

    /** Move up to n slots at once. */
    method MoveSlots(from: string, to: string, n: int) returns (moved: int)
      modifies this
      ensures nodes == SlotsMoved(old(nodes), from, to, n)
      ensures moved == if from in old(nodes) && to in old(nodes) then Takes(old(nodes)[from], n) else 0
    {
      if from !in nodes || to !in nodes {
        return 0;
      }
      moved := Takes(nodes[from], n);
      nodes := nodes[from := WithSlots(nodes[from], nodes[from].SlotCount() - moved)];
      nodes := nodes[to := WithSlots(AsMaster(nodes[to]), nodes[to].SlotCount() + moved)];
    }
  }
}
