/** Removing shards: draining their slots batch by batch, then forgetting their nodes and deleting their workloads. */
module Teardown {
  import opened Wrappers
  import opened Cluster
  import opened Names
  import opened Fake
  import opened Membership
  import opened Scaling
  import Planning

  const DRAIN_BATCH: nat := 1024

  // ---- existing shards, in order ----

  /** The elements in ascending order. */
  ghost function Sorted(s: set<nat>): (q: seq<nat>)
    ensures forall x :: x in q <==> x in s
    ensures forall a, b | 0 <= a < b < |q| :: q[a] < q[b]
  {
    if s == {} then [] else [Least(s)] + Sorted(s - {Least(s)})
  }

  lemma SortedFirst(s: set<nat>, before: seq<nat>)
    requires s != {}
    ensures before + Sorted(s) == (before + [Least(s)]) + Sorted(s - {Least(s)})
  {
    var first, rest := [Least(s)], Sorted(s - {Least(s)});
    assert Sorted(s) == first + rest;
    hide Sorted;
    assert before + (first + rest) == (before + first) + rest;
  }

  lemma NoneSorted()
    ensures Sorted({}) == []
  {
  }

  /** The shards that have a StatefulSet, ascending. */
  method ExistingShardIndexes(w: Workloads) returns (idxs: seq<nat>)
    ensures idxs == Sorted(w.shards)
  {
    hide Sorted;
    idxs := [];
    var rest := w.shards;
    while rest != {}
      invariant Sorted(w.shards) == idxs + Sorted(rest)
      decreases |rest|
    {
      var m := SmallestOf(rest);
      SortedFirst(rest, idxs);
      idxs, rest := idxs + [m], rest - {m};
    }
    NoneSorted();
  }

  predicate Excess(cr: ValkeyCluster, shards: set<nat>) {
    exists i :: i in shards && i >= cr.shards
  }

  method HasExcessShards(w: Workloads, cr: ValkeyCluster) returns (excess: bool)
    ensures excess <==> Excess(cr, w.shards)
  {
    var idxs := ExistingShardIndexes(w);
    for k := 0 to |idxs|
      invariant forall l | 0 <= l < k :: idxs[l] < cr.shards
    {
      if idxs[k] >= cr.shards {
        assert idxs[k] in w.shards;
        return true;
      }
    }
    assert forall i | i in w.shards :: i in idxs;
    return false;
  }

  // ---- one pass ----

  /** The first declared shard, from s on, that has a primary other than `exclude` among the pods that answer. */
  function SurvivorFrom(idx: Nodes, cr: ValkeyCluster, exclude: string, s: nat, silent: set<string>): string
    decreases cr.shards - s
  {
    if s >= cr.shards then ""
    else
      var p := HeardPrimary(idx, cr, s, silent);
      if p != "" && p != exclude then p else SurvivorFrom(idx, cr, exclude, s + 1, silent)
  }

  method FirstSurvivorPrimary(f: FakeCluster, cr: ValkeyCluster, idx: Nodes, exclude: string, silent: set<string>)
    returns (id: string)
    requires AllProper(f.nodes)
    modifies f
    ensures AllProper(f.nodes) && id == SurvivorFrom(idx, cr, exclude, 0, silent)
    ensures Total(f.nodes) <= Total(old(f.nodes))
    ensures Known(cr, old(f.nodes), cr.shards) ==> f.nodes == old(f.nodes)
  {
    hide PodFQDN, CountRanges, Proper, PodIndex, Total, Grown, PrimaryHeard;
    var s := 0;
    while s < cr.shards
      invariant 0 <= s && AllProper(f.nodes) && (Known(cr, old(f.nodes), cr.shards) ==> f.nodes == old(f.nodes))
      invariant SurvivorFrom(idx, cr, exclude, 0, silent) == SurvivorFrom(idx, cr, exclude, s, silent)
      invariant Total(f.nodes) <= Total(old(f.nodes))
    {
      var ord;
      ghost var now := f.nodes;
      id, ord := FindShardPrimary(f, cr, s, idx, silent);
      GrownTotal(now, f.nodes);
      if id != "" && id != exclude {
        return;
      }
      s := s + 1;
    }
    id := "";
  }

  function Batch(count: nat): nat {
    if count < DRAIN_BATCH then count else DRAIN_BATCH
  }

  /** `h` is a pod of shard i that answers. */
  predicate Answers(cr: ValkeyCluster, h: string, i: nat, silent: set<string>) {
    IsPod(cr, h) && Shard(cr, h) == i && h !in silent
  }

  /** The cluster without those pods of shard i that answer. */
  function Drop(ns: Nodes, cr: ValkeyCluster, i: nat, silent: set<string>): Nodes {
    map h | h in ns && !Answers(cr, h, i, silent) :: ns[h]
  }

  /** One scale-in pass over the shards listed: drop departing shards that show no slots until one does; move one
      batch of those to a survivor and stop. The last part of the result is whether no survivor answered. */
  ghost function PassFrom(cr: ValkeyCluster, ns: Nodes, shards: set<nat>, idxs: seq<nat>, silent: set<string>)
    : (Nodes, set<nat>, bool)
    decreases |idxs|
  {
    if idxs == [] then (ns, shards, false)
    else
      var i, p := idxs[0], HeardPrimary(ns, cr, idxs[0], silent);
      if i < cr.shards then PassFrom(cr, ns, shards, idxs[1..], silent)
      else if ShowsSlots(ns, p) then
        var to := SurvivorFrom(ns, cr, p, 0, silent);
        if to == "" then (ns, shards, true) else (SlotsMoved(ns, p, to, Batch(ns[p].SlotCount())), shards, false)
      else PassFrom(cr, Drop(ns, cr, i, silent), shards - {i}, idxs[1..], silent)
  }

  /** The declared shards exist, and the pods of existing shards are known. */
  ghost predicate AllJoined(cr: ValkeyCluster, ns: Nodes, shards: set<nat>) {
    && AllProper(ns) && cr.shards > 0 && (forall i: nat | i < cr.shards :: i in shards)
    && (forall i: nat, j: nat | i in shards && j <= cr.replicas :: PodFQDN(cr, i, j) in ns)
  }

  /** So it is, and there are no other nodes. */
  ghost predicate InPlace(cr: ValkeyCluster, ns: Nodes, shards: set<nat>) {
    AllJoined(cr, ns, shards) && forall h | h in ns :: HasPod(cr, shards, h)
  }

  lemma DropJoined(cr: ValkeyCluster, ns: Nodes, shards: set<nat>, i: nat, silent: set<string>)
    requires AllJoined(cr, ns, shards) && i >= cr.shards
    ensures AllJoined(cr, Drop(ns, cr, i, silent), shards - {i})
  {
    hide PodFQDN, PodIndex, Proper;
    forall i': nat, j: nat | i' in shards - {i} && j <= cr.replicas
      ensures PodFQDN(cr, i', j) in Drop(ns, cr, i, silent)
    {
      assert Shard(cr, PodFQDN(cr, i', j)) == i';
    }
  }

  lemma DropInPlace(cr: ValkeyCluster, ns: Nodes, shards: set<nat>, i: nat)
    requires InPlace(cr, ns, shards) && i >= cr.shards
    ensures InPlace(cr, Drop(ns, cr, i, {}), shards - {i})
  {
    hide PodFQDN, PodIndex, Proper, AllJoined;
    DropJoined(cr, ns, shards, i, {});
  }

  /** Forget the nodes of shard i, pod by pod; one that does not answer is left. */
  method ForgetShard(f: FakeCluster, cr: ValkeyCluster, i: nat, silent: set<string>)
    requires AllProper(f.nodes)
    modifies f
    ensures AllProper(f.nodes) && Total(f.nodes) <= Total(old(f.nodes))
    ensures cr.shards > 0 && (forall j: nat | j <= cr.replicas :: PodFQDN(cr, i, j) in old(f.nodes)) ==>
              f.nodes == Drop(old(f.nodes), cr, i, silent)
  {
    hide PodFQDN, PodIndex, Proper, Total, CountRanges, DropUpTo;
    ghost var ns := f.nodes;
    ghost var known := cr.shards > 0 && forall j: nat | j <= cr.replicas :: PodFQDN(cr, i, j) in ns;
    DropEnds(ns, cr, i, silent);
    for j := 0 to cr.replicas + 1
      invariant AllProper(f.nodes) && Total(f.nodes) <= Total(ns)
      invariant known ==> f.nodes == DropUpTo(ns, cr, i, j, silent)
    {
      DropNext(ns, cr, i, j, silent);
      if PodFQDN(cr, i, j) in silent {
        continue;
      }
      ghost var now := f.nodes;
      EnsureGrows(now, PodFQDN(cr, i, j));
      var id := f.MyID(PodFQDN(cr, i, j));
      GrownTotal(now, f.nodes);
      ghost var asked := f.nodes;
      if id != "" {
        ForgetEverywhere(f, cr, id);
        TotalNoMore(f.nodes, asked);
      }
    }
  }

  function DropUpTo(ns: Nodes, cr: ValkeyCluster, i: nat, j: nat, silent: set<string>): Nodes {
    map h | h in ns && !(Answers(cr, h, i, silent) && Ordinal(cr, h) < j) :: ns[h]
  }

  lemma DropNext(ns: Nodes, cr: ValkeyCluster, i: nat, j: nat, silent: set<string>)
    requires j <= cr.replicas
    ensures PodFQDN(cr, i, j) in ns ==> PodFQDN(cr, i, j) in DropUpTo(ns, cr, i, j, silent)
    ensures DropUpTo(ns, cr, i, j + 1, silent) ==
            if PodFQDN(cr, i, j) in silent then DropUpTo(ns, cr, i, j, silent)
            else DropUpTo(ns, cr, i, j, silent) - {PodFQDN(cr, i, j)}
  {
    hide PodFQDN, PodIndex;
    assert Shard(cr, PodFQDN(cr, i, j)) == i && Ordinal(cr, PodFQDN(cr, i, j)) == j;
  }

  lemma DropEnds(ns: Nodes, cr: ValkeyCluster, i: nat, silent: set<string>)
    ensures DropUpTo(ns, cr, i, 0, silent) == ns
    ensures DropUpTo(ns, cr, i, cr.replicas + 1, silent) == Drop(ns, cr, i, silent)
  {
    hide PodFQDN, PodIndex;
  }

  lemma SurvivorIsFirst(idx: Nodes, cr: ValkeyCluster, i: nat)
    requires 0 < cr.shards <= i
    ensures var p := ShardPrimary(idx, cr, i); SurvivorFrom(idx, cr, p, 0, {}) == ShardPrimary(idx, cr, 0) != p
    ensures ShardPrimary(idx, cr, 0) != ""
  {
    PrimaryIs(idx, cr, 0);
    PrimaryIs(idx, cr, i);
    AllHeard(idx, cr, 0);
    NotEmpty(idx, cr, 0);
    hide ShardPrimary, Shard, HeardPrimary;
  }

  lemma JoinedKnown(cr: ValkeyCluster, ns: Nodes, shards: set<nat>, i: nat)
    requires AllJoined(cr, ns, shards) && i in shards
    ensures cr.shards > 0 && Known(cr, ns, cr.shards) && (forall j: nat | j <= cr.replicas :: PodFQDN(cr, i, j) in ns)
    ensures (forall j | 0 <= j <= cr.replicas :: PodFQDN(cr, i, j) in ns)
  {
    hide PodFQDN, AllProper;
  }

  /** What is left of a pass when the shards from index k on are still to be visited. */
  ghost predicate PassLeft(
    cr: ValkeyCluster, ns: Nodes, shards: set<nat>, silent: set<string>, now: Nodes, left: set<nat>, k: nat)
  {
    var idxs := Sorted(shards);
    && k <= |idxs| && AllJoined(cr, now, left) && (forall l | k <= l < |idxs| :: idxs[l] in left)
    && PassFrom(cr, ns, shards, idxs, silent) == PassFrom(cr, now, left, idxs[k..], silent)
  }

  lemma PassStep(
    cr: ValkeyCluster, ns: Nodes, shards: set<nat>, silent: set<string>, now: Nodes, left: set<nat>, k: nat)
    requires PassLeft(cr, ns, shards, silent, now, left, k) && k < |Sorted(shards)|
    ensures var i := Sorted(shards)[k];
            var p := HeardPrimary(now, cr, i, silent);
            if i < cr.shards then PassLeft(cr, ns, shards, silent, now, left, k + 1)
            else if ShowsSlots(now, p) then
              var to := SurvivorFrom(now, cr, p, 0, silent);
              PassFrom(cr, ns, shards, Sorted(shards), silent) ==
                if to == "" then (now, left, true)
                else (SlotsMoved(now, p, to, Batch(now[p].SlotCount())), left, false)
            else PassLeft(cr, ns, shards, silent, Drop(now, cr, i, silent), left - {i}, k + 1)
  {
    hide Sorted, SlotsMoved, Drop, HeardPrimary, SurvivorFrom, CountRanges, AllJoined;
    var idxs := Sorted(shards);
    var i := idxs[k];
    assert idxs[k..][0] == i && idxs[k..][1..] == idxs[k + 1..];
    if i >= cr.shards {
      DropJoined(cr, now, left, i, silent);
    }
  }

  lemma PassBegins(cr: ValkeyCluster, ns: Nodes, shards: set<nat>, silent: set<string>)
    requires AllJoined(cr, ns, shards)
    ensures PassLeft(cr, ns, shards, silent, ns, shards, 0)
  {
    hide AllJoined, PassFrom;
    assert Sorted(shards)[0..] == Sorted(shards);
  }

  lemma PassEnds(cr: ValkeyCluster, ns: Nodes, shards: set<nat>, silent: set<string>, now: Nodes, left: set<nat>)
    requires PassLeft(cr, ns, shards, silent, now, left, |Sorted(shards)|)
    ensures PassFrom(cr, ns, shards, Sorted(shards), silent) == (now, left, false)
  {
    hide AllJoined, Sorted;
    assert Sorted(shards)[|Sorted(shards)|..] == [];
  }

  /** The nodes of existing shards: what the sweep leaves. */
  function Swept(cr: ValkeyCluster, ns: Nodes, shards: set<nat>): Nodes {
    map h | h in ns && HasPod(cr, shards, h) :: ns[h]
  }

  lemma SweptIs(cr: ValkeyCluster, ns: Nodes, shards: set<nat>, nodes: seq<NodeInfo>)
    requires AllProper(ns) && "" !in ns && Lists(nodes, ns)
    ensures ns - Stale(cr, shards, nodes) == Swept(cr, ns, shards)
  {
    hide HasPod, Stale, Proper;
    forall h | h in ns
      ensures h in Stale(cr, shards, nodes) <==> !HasPod(cr, shards, h)
    {
      StaleIs(cr, shards, nodes, h);
      Planning.ListedNode(nodes, ns, h);
    }
  }

  lemma SweptInPlace(cr: ValkeyCluster, ns: Nodes, shards: set<nat>)
    requires InPlace(cr, ns, shards)
    ensures Swept(cr, ns, shards) == ns
  {
    hide HasPod, PodFQDN, AllJoined;
  }

  /** Remove the shards beyond the declared ones, one batch of slots per call, after sweeping the nodes of shards
      that are gone. The hosts in `silent` do not answer. */
  method ScaleIn(f: FakeCluster, w: Workloads, cr: ValkeyCluster, silent: set<string>) returns (err: bool)
    requires AllProper(f.nodes)
    modifies f, w
    ensures AllProper(f.nodes) && Total(f.nodes) <= Total(old(f.nodes))
    ensures "" !in old(f.nodes) && InPlace(cr, Swept(cr, old(f.nodes), old(w.shards)), old(w.shards)) ==>
              && (f.nodes, w.shards, err) ==
                 PassFrom(cr, Swept(cr, old(f.nodes), old(w.shards)), old(w.shards), Sorted(old(w.shards)), silent)
              && (silent == {} ==> !err)
  {
    hide *;
    err := false;
    ghost var start, shards := f.nodes, w.shards;
    ghost var ns := Swept(cr, start, shards);
    ghost var fine := "" !in start && InPlace(cr, ns, shards);
    var st := f.State();
    ObservedList(st, start);
    ForgetStaleNodes(f, w, cr, st.nodes);
    ProperSubset(start, f.nodes);
    TotalNoMore(f.nodes, start);
    if fine {
      SweptIs(cr, start, shards, st.nodes);
      InPlaceJoined(cr, ns, shards);
      PassBegins(cr, ns, shards, silent);
    }
    var idxs := ExistingShardIndexes(w);
    for k := 0 to |idxs|
      invariant AllProper(f.nodes) && Total(f.nodes) <= Total(start)
      invariant fine ==> PassLeft(cr, ns, shards, silent, f.nodes, w.shards, k)
    {
      var i := idxs[k];
      ghost var now, left := f.nodes, w.shards;
      if fine {
        PassStep(cr, ns, shards, silent, now, left, k);
        LeftKnown(cr, ns, shards, silent, now, left, k);
      }
      if i < cr.shards {
        continue;
      }
      st := f.State();
      ObservedList(st, f.nodes);
      var idx := IndexByID(st.nodes, f.nodes);
      var departID, ord := FindShardPrimary(f, cr, i, idx, silent);
      HeardIs(idx, cr, i, silent, departID, ord);
      GrownTotal(now, f.nodes);
      ShowsMeans(idx, departID);
      if departID != "" && departID in idx && idx[departID].SlotCount() > 0 {
        var survID := FirstSurvivorPrimary(f, cr, idx, departID, silent);
        if fine && silent == {} {
          AllHeard(idx, cr, i);
          SurvivorIsFirst(idx, cr, i);
        }
        if survID == "" {
          err := true;
          return;
        }
        var batch := if idx[departID].SlotCount() < DRAIN_BATCH then idx[departID].SlotCount() else DRAIN_BATCH;
        BatchIs(idx[departID].SlotCount());
        MoveProper(f.nodes, departID, survID, batch);
        MoveTotal(f.nodes, departID, survID, batch);
        var moved := f.MoveSlots(departID, survID, batch);
        return;
      }
      ForgetShard(f, cr, i, silent);
      w.DeleteShard(i);
    }
    if fine {
      PassEnds(cr, ns, shards, silent, f.nodes, w.shards);
    }
  }

  lemma HeardIs(idx: Nodes, cr: ValkeyCluster, i: nat, silent: set<string>, id: string, ord: int)
    requires match PrimaryHeard(idx, cr, i, silent)
             case Some(j) => id == PodFQDN(cr, i, j) && ord == j
             case None => id == "" && ord == -1
    ensures id == HeardPrimary(idx, cr, i, silent)
  {
    hide PrimaryHeard;
  }

  lemma ShowsMeans(ns: Nodes, p: string)
    ensures ShowsSlots(ns, p) <==> p != "" && p in ns && ns[p].SlotCount() > 0
  {
  }

  lemma InPlaceJoined(cr: ValkeyCluster, ns: Nodes, shards: set<nat>)
    requires InPlace(cr, ns, shards)
    ensures AllJoined(cr, ns, shards) && cr.shards > 0
  {
  }

  lemma BatchIs(count: nat)
    ensures Batch(count) == if count < DRAIN_BATCH then count else DRAIN_BATCH
  {
  }

  lemma ProperSubset(ns: Nodes, after: Nodes)
    requires AllProper(ns) && forall h | h in after :: h in ns && after[h] == ns[h]
    ensures AllProper(after)
  {
  }

  lemma LeftKnown(
    cr: ValkeyCluster, ns: Nodes, shards: set<nat>, silent: set<string>, now: Nodes, left: set<nat>, k: nat)
    requires PassLeft(cr, ns, shards, silent, now, left, k) && k < |Sorted(shards)|
    ensures var i := Sorted(shards)[k];
            && cr.shards > 0 && Known(cr, now, cr.shards)
            && (forall j: nat | j <= cr.replicas :: PodFQDN(cr, i, j) in now)
            && (forall j | 0 <= j <= cr.replicas :: PodFQDN(cr, i, j) in now)
  {
    hide PodFQDN, PassFrom, Sorted, AllJoined;
    JoinedKnown(cr, now, left, Sorted(shards)[k]);
  }

  // ---- the sweep ----

  lemma {:induction false} TotalMonotone(small: Nodes, big: Nodes)
    requires AllProper(big) && small.Keys <= big.Keys && forall h | h in small :: small[h] == big[h]
    ensures Total(small) <= Total(big)
    decreases |big|
  {
    hide Total, CountRanges, Proper;
    if h :| h in big && h !in small {
      TotalSplit(big, h);
      ProperNode(big[h]);
      TotalMonotone(small, big - {h});
    } else {
      assert big == small;
    }
  }

  /** Sweeping stale nodes keeps all slots assigned exactly when every slot owner is a declared ordinal of a shard
      whose StatefulSet exists. */
  lemma SweepKeepsSlots(cr: ValkeyCluster, shards: set<nat>, ns: Nodes, nodes: seq<NodeInfo>)
    requires AllProper(ns) && "" !in ns && Lists(nodes, ns)
    ensures Total(ns - Stale(cr, shards, nodes)) == Total(ns) <==>
            forall h | h in ns && ns[h].OwnsSlots() :: HasPod(cr, shards, h)
  {
    hide Total, CountRanges, Proper, HasPod, Stale, NodeInfo.OwnsSlots;
    var gone := Stale(cr, shards, nodes);
    forall h | h in ns
      ensures h in gone <==> !HasPod(cr, shards, h)
      ensures ns[h].SlotCount() >= 0 && (ns[h].OwnsSlots() <==> ns[h].SlotCount() > 0)
    {
      StaleIs(cr, shards, nodes, h);
      Planning.ListedNode(nodes, ns, h);
      ProperNode(ns[h]);
    }
    if h :| h in ns && ns[h].OwnsSlots() && !HasPod(cr, shards, h) {
      TotalSplit(ns, h);
      TotalMonotone(ns - gone, ns - {h});
    } else {
      EmptyNodesCountNothing(ns - gone, ns);
    }
  }

  /** Lowering the replica count while the highest ordinal is primary: the sweep forgets the owner of every slot. */
  lemma SweepForgetsOwner()
    ensures var cr := ValkeyCluster("vc", "default", 1, 0);
            var h := PodFQDN(cr, 0, 1);
            var ns := map[h := Fresh(h).(slots := [SlotRange(0, 16383)])];
            AllProper(ns) && Total(ns) == TOTAL_SLOTS && Total(ns - Stale(cr, {0}, [ns[h]])) == 0
  {
    hide PodFQDN, PodIndex, Total, Stale;
    var cr := ValkeyCluster("vc", "default", 1, 0);
    var h := PodFQDN(cr, 0, 1);
    var n := Fresh(h).(slots := [SlotRange(0, 16383)]);
    assert CountRanges([SlotRange(0, 16383)]) == 16384 + CountRanges([]);
    var ns := map[h := n];
    assert Ordinal(cr, h) == 1 && !HasPod(cr, {0}, h);
    StaleIs(cr, {0}, [n], h);
    assert [n][0] == n;
    TotalSplit(ns, h);
    assert ns - {h} == map[] && ns - Stale(cr, {0}, [n]) == map[];
    EmptyTotal();
  }
}
