/** Adding shards: joining their pods and filling their primaries from the fattest ones. */
module Scaling {
  import opened Wrappers
  import opened Cluster
  import opened Names
  import opened Fake
  import opened Membership
  import opened Planning

  /** The nodes that own slots. */
  ghost function OwnersOf(ns: Nodes): set<string> {
    set h | h in ns && ns[h].OwnsSlots()
  }

  // ---- picking a source ----

  /** The primary with the most slots, other than `exclude`; ties go either way. */
  method FattestPrimary(idx: Nodes, exclude: string) returns (id: string, best: int)
    ensures best >= 0 && (best == 0 ==> id == "")
    ensures best > 0 ==> id in idx && id != exclude && idx[id].OwnsSlots() && idx[id].SlotCount() == best
    ensures forall h | h in idx && h != exclude && idx[h].OwnsSlots() :: idx[h].SlotCount() <= best
  {
    hide CountRanges;
    id, best := "", 0;
    var rest := idx.Keys;
    while rest != {}
      invariant rest <= idx.Keys
      invariant best >= 0 && (best == 0 ==> id == "")
      invariant best > 0 ==> id in idx && id != exclude && idx[id].OwnsSlots() && idx[id].SlotCount() == best
      invariant forall h | h in idx && h !in rest && h != exclude && idx[h].OwnsSlots() :: idx[h].SlotCount() <= best
      decreases |rest|
    {
      var h: string :| h in rest;
      rest := rest - {h};
      if h == exclude || !idx[h].IsPrimary() {
        continue;
      }
      if idx[h].SlotCount() > best {
        id, best := h, idx[h].SlotCount();
      }
    }
  }

  /** All slots are assigned and fewer than `shards` nodes other than `id` own any. */
  ghost predicate Crowded(ns: Nodes, id: string, shards: nat) {
    shards > 0 && Total(ns) == TOTAL_SLOTS && |OwnersOf(ns) - {id}| < shards
  }

  /** With all slots assigned to fewer nodes than `shards`, some node other than one below the fair share holds
      more than the fair share. */
  lemma SomebodyIsFat(ns: Nodes, id: string, shards: nat) returns (h: string)
    requires AllProper(ns) && id in ns && Crowded(ns, id, shards) && ns[id].SlotCount() < TOTAL_SLOTS / shards
    ensures h in ns && h != id && ns[h].OwnsSlots() && ns[h].SlotCount() > TOTAL_SLOTS / shards
  {
    hide Total, CountRanges, Proper;
    var share := TOTAL_SLOTS / shards;
    forall k | k in ns
      ensures ns[k].SlotCount() >= 0 && (ns[k].OwnsSlots() <==> ns[k].SlotCount() > 0)
    {
      ProperNode(ns[k]);
    }
    if fat :| fat in ns && fat != id && ns[fat].SlotCount() > share {
      h := fat;
    } else {
      var others, owners := ns - {id}, OwnersOf(ns) - {id};
      TotalSplit(ns, id);
      TotalBound(others, owners, share);
      FairShare(|owners|, shards);
      assert false;
    }
  }

  lemma {:induction false} TimesMonotone(a: nat, b: nat, m: nat)
    requires a <= b
    ensures a * m <= b * m
  {
    assert b * m == a * m + (b - a) * m;
    TimesPositive(b - a, m);
  }

  lemma FairShare(owners: nat, shards: nat)
    requires owners < shards
    ensures owners * (TOTAL_SLOTS / shards) + TOTAL_SLOTS / shards <= TOTAL_SLOTS
  {
    var share := TOTAL_SLOTS / shards;
    assert shards * share <= TOTAL_SLOTS;
    TimesMonotone(owners + 1, shards, share);
    TimesSucc(owners, share);
  }

  // ---- moving slots in the fake ----

  /** A move keeps the total, takes from one node what it gives to the other, and touches nobody else. */
  lemma MoveShifts(ns: Nodes, from: string, to: string, n: int)
    requires AllProper(ns) && from in ns && to in ns && from != to && 0 <= n <= ns[from].SlotCount()
    ensures var after := SlotsMoved(ns, from, to, n);
            && after.Keys == ns.Keys && AllProper(after) && Total(after) == Total(ns)
            && after[from] == WithSlots(ns[from], ns[from].SlotCount() - n)
            && after[from].SlotCount() == ns[from].SlotCount() - n
            && after[to].SlotCount() == ns[to].SlotCount() + n && after[to].masterID == ""
            && (forall h | h in ns && h != from && h != to :: after[h] == ns[h])
  {
    hide Total, CountRanges, CountToRanges, WithSlots, Proper, AsMaster, SlotsMoved, AllProper;
    NodeProper(ns, from);
    NodeProper(ns, to);
    ProperNode(ns[from]);
    ProperNode(ns[to]);
    MasterProper(ns[to]);
    WithSlotsProper(ns[from], ns[from].SlotCount() - n);
    WithSlotsProper(AsMaster(ns[to]), ns[to].SlotCount() + n);
    MovedIs(ns, from, to, n);
    TwoUpdates(ns, from, to,
               WithSlots(ns[from], ns[from].SlotCount() - n), WithSlots(AsMaster(ns[to]), ns[to].SlotCount() + n));
  }

  lemma NodeProper(ns: Nodes, h: string)
    requires AllProper(ns) && h in ns
    ensures ns[h].id == h && ns[h].host == h && Proper(ns[h])
  {
  }

  lemma MovedIs(ns: Nodes, from: string, to: string, n: int)
    requires from in ns && to in ns && from != to && n <= ns[from].SlotCount()
    ensures SlotsMoved(ns, from, to, n) ==
            ns[from := WithSlots(ns[from], ns[from].SlotCount() - n)]
              [to := WithSlots(AsMaster(ns[to]), ns[to].SlotCount() + n)]
  {
    hide WithSlots, AsMaster, CountRanges;
  }

  lemma TwoUpdates(ns: Nodes, from: string, to: string, less: NodeInfo, more: NodeInfo)
    requires AllProper(ns) && from in ns && to in ns && from != to && Proper(less) && Proper(more)
    requires less.id == less.host == from && more.id == more.host == to
    requires less.SlotCount() + more.SlotCount() == ns[from].SlotCount() + ns[to].SlotCount()
    ensures var after := ns[from := less][to := more];
            && after.Keys == ns.Keys && AllProper(after) && Total(after) == Total(ns)
            && after[from] == less && after[to] == more
  {
    hide Total, CountRanges, Proper;
    TotalUpdate(ns, from, less);
    TotalUpdate(ns[from := less], to, more);
  }

  lemma WithSlotsProper(n: NodeInfo, count: int)
    requires Proper(n) && count >= 0 && (n.IsPrimary() || count == 0)
    ensures Proper(WithSlots(n, count)) && WithSlots(n, count).SlotCount() == count
    ensures WithSlots(n, count).id == n.id && WithSlots(n, count).host == n.host
    ensures WithSlots(n, count).masterID == n.masterID
  {
    ProperNode(n);
    hide CountRanges;
    CountOfCount(count);
  }

  /** Whatever the move, the nodes stay well formed. */
  lemma MoveProper(ns: Nodes, from: string, to: string, n: int)
    requires AllProper(ns) && n >= 0
    ensures AllProper(SlotsMoved(ns, from, to, n))
  {
    hide CountRanges, CountToRanges, WithSlots, Proper, AsMaster;
    if from in ns && to in ns {
      ProperNode(ns[from]);
      ProperNode(ns[to]);
      var moved := Takes(ns[from], n);
      WithSlotsProper(ns[from], ns[from].SlotCount() - moved);
      var ns1 := ns[from := WithSlots(ns[from], ns[from].SlotCount() - moved)];
      MasterProper(ns1[to]);
      WithSlotsProper(AsMaster(ns1[to]), ns1[to].SlotCount() + moved);
    }
  }

  /** Whatever the move, the total stays the same. */
  lemma MoveTotal(ns: Nodes, from: string, to: string, n: int)
    requires AllProper(ns) && n >= 0
    ensures Total(SlotsMoved(ns, from, to, n)) == Total(ns)
  {
    hide Total, CountRanges, CountToRanges, WithSlots, Proper, AsMaster;
    if from in ns && to in ns {
      ProperNode(ns[from]);
      ProperNode(ns[to]);
      var moved := Takes(ns[from], n);
      var less := WithSlots(ns[from], ns[from].SlotCount() - moved);
      WithSlotsProper(ns[from], ns[from].SlotCount() - moved);
      var ns1 := ns[from := less];
      MasterProper(ns1[to]);
      WithSlotsProper(AsMaster(ns1[to]), ns1[to].SlotCount() + moved);
      TotalUpdate(ns, from, less);
      TotalUpdate(ns1, to, WithSlots(AsMaster(ns1[to]), ns1[to].SlotCount() + moved));
    }
  }

  lemma MasterProper(n: NodeInfo)
    requires Proper(n)
    ensures Proper(AsMaster(n)) && AsMaster(n).IsPrimary() && AsMaster(n).SlotCount() == n.SlotCount() >= 0
    ensures AsMaster(n).id == n.id && AsMaster(n).host == n.host && AsMaster(n).masterID == ""
  {
    ProperNode(n);
  }

  // ---- filling one primary ----

  /** One node above the fair share gave `id` exactly what it lacked. */
  ghost predicate FilledBy(ns: Nodes, after: Nodes, id: string, share: int, src: string) {
    && id in ns && src in ns && src != id && ns[src].SlotCount() > share && ns[id].SlotCount() < share
    && after == SlotsMoved(ns, src, id, share - ns[id].SlotCount())
  }

  /** Where the fill of `id` stands, with `need` slots to go. */
  ghost predicate Filling(ns: Nodes, now: Nodes, id: string, shards: nat, need: int, src: string)
    requires shards > 0
  {
    var share := TOTAL_SLOTS / shards;
    && AllProper(now) && now.Keys == ns.Keys && Total(now) == Total(ns)
    && id in ns && need == share - now[id].SlotCount()
    && (now == ns || (Crowded(ns, id, shards) ==> need == 0 && FilledBy(ns, now, id, share, src)))
    && (share <= ns[id].SlotCount() ==> now == ns)
    && (forall h | h in ns && h != id :: now[h].SlotCount() <= ns[h].SlotCount())
  }

  lemma FillOnce(ns: Nodes, now: Nodes, id: string, shards: nat, need: int, last: string, src: string, take: int)
    requires shards > 0 && Filling(ns, now, id, shards, need, last) && need > 0 && AllProper(ns)
    requires src in now && src != id && now[src].OwnsSlots() && 0 < take <= need && take <= now[src].SlotCount()
    requires take == need || take == now[src].SlotCount()
    requires forall h | h in now && h != id && now[h].OwnsSlots() :: now[h].SlotCount() <= now[src].SlotCount()
    ensures Filling(ns, SlotsMoved(now, src, id, take), id, shards, need - take, src)
  {
    hide Total, CountRanges, SlotsMoved, NodeInfo.OwnsSlots, Proper, OwnersOf, AllProper;
    MoveShifts(now, src, id, take);
    if Crowded(ns, id, shards) {
      var fat := SomebodyIsFat(ns, id, shards);
      CountsArePositive(ns);
    }
  }

  /** No other node owns slots. */
  ghost predicate NobodyElse(ns: Nodes, id: string) {
    forall h | h in ns && h != id :: !ns[h].OwnsSlots()
  }

  lemma NobodyElseIf(ns: Nodes, id: string)
    requires forall h | h in ns && h != id && ns[h].OwnsSlots() :: ns[h].SlotCount() <= 0
    ensures NobodyElse(ns, id)
  {
    hide CountRanges, NodeInfo.IsPrimary;
  }

  /** Bring `id` up to its fair share, taking from the fattest primary first, or as far as the others' slots go. In a
      crowded cluster one move does it. */
  method FillPrimary(f: FakeCluster, id: string, shards: nat) returns (ghost src: string)
    requires AllProper(f.nodes) && id in f.nodes && "" !in f.nodes && shards > 0
    modifies f
    ensures AllProper(f.nodes) && f.nodes.Keys == old(f.nodes.Keys) && Total(f.nodes) == Total(old(f.nodes))
    ensures old(f.nodes)[id].SlotCount() >= TOTAL_SLOTS / shards ==> f.nodes == old(f.nodes)
    ensures Crowded(old(f.nodes), id, shards) && old(f.nodes)[id].SlotCount() < TOTAL_SLOTS / shards ==>
              FilledBy(old(f.nodes), f.nodes, id, TOTAL_SLOTS / shards, src)
    ensures forall h | h in f.nodes && h != id :: f.nodes[h].SlotCount() <= old(f.nodes)[h].SlotCount()
    ensures old(f.nodes)[id].SlotCount() < TOTAL_SLOTS / shards ==>
              || f.nodes[id].SlotCount() == TOTAL_SLOTS / shards
              || (f.nodes[id].SlotCount() < TOTAL_SLOTS / shards && NobodyElse(f.nodes, id))
  {
    hide Total, CountRanges, SlotsMoved, Lists, NodeInfo.OwnsSlots, Proper, AllProper, Crowded, FilledBy;
    src := "";
    ghost var ns := f.nodes;
    var share := TOTAL_SLOTS / shards;
    var st := f.State();
    var idx := IndexByID(st.nodes, f.nodes);
    var need := share - idx[id].SlotCount();
    while need > 0
      invariant idx == f.nodes && Filling(ns, f.nodes, id, shards, need, src)
      invariant ns[id].SlotCount() < share ==> need >= 0
    {
      var srcID, srcSlots := FattestPrimary(idx, id);
      if Crowded(ns, id, shards) && f.nodes == ns {
        var fat := SomebodyIsFat(ns, id, shards);
      }
      if srcID == "" || srcSlots == 0 {
        NobodyElseIf(idx, id);
        break;
      }
      var take := if need > srcSlots then srcSlots else need;
      FillOnce(ns, f.nodes, id, shards, need, src, srcID, take);
      src := srcID;
      var moved := f.MoveSlots(srcID, id, take);
      if moved == 0 {
        break;
      }
      need := need - moved;
      st := f.State();
      idx := IndexByID(st.nodes, f.nodes);
    }
  }

  // ---- filling all new primaries ----

  /** `h` is the first pod of a shard between lo and hi. */
  predicate IsNew(cr: ValkeyCluster, h: string, lo: nat, hi: nat) {
    IsPod(cr, h) && Ordinal(cr, h) == 0 && lo <= Shard(cr, h) < hi
  }

  /** A new primary below its share now has exactly its share. Any other node may have given slots, but never its
      last one, and only if it had more than the fair share. */
  ghost predicate FilledNode(a: NodeInfo, b: NodeInfo, share: int, isNew: bool) {
    && (isNew || b.masterID == a.masterID)
    && if isNew && a.SlotCount() <= share then b.SlotCount() == share
       else
         && b.SlotCount() <= a.SlotCount()
         && (a.SlotCount() <= share ==> b.SlotCount() == a.SlotCount())
         && (a.SlotCount() > 0 ==> b.SlotCount() > 0)
  }

  ghost predicate Filled(cr: ValkeyCluster, ns: Nodes, after: Nodes, lo: nat, hi: nat)
    requires cr.shards > 0
  {
    && after.Keys == ns.Keys && AllProper(after) && Total(after) == Total(ns) && |OwnersOf(after)| <= hi
    && forall h | h in ns :: FilledNode(ns[h], after[h], TOTAL_SLOTS / cr.shards, IsNew(cr, h, lo, hi))
  }

  lemma OneMoreOwner(ns: Nodes, after: Nodes, id: string, k: nat)
    requires AllProper(ns) && AllProper(after) && after.Keys == ns.Keys && id in ns && |OwnersOf(ns)| <= k
    requires forall h | h in ns && h != id :: after[h].SlotCount() <= ns[h].SlotCount()
    ensures |OwnersOf(after)| <= k + 1
  {
    hide CountRanges, Proper, NodeInfo.OwnsSlots;
    forall h | h in ns
      ensures (ns[h].OwnsSlots() <==> ns[h].SlotCount() > 0) && (after[h].OwnsSlots() <==> after[h].SlotCount() > 0)
    {
      ProperNode(ns[h]);
      ProperNode(after[h]);
    }
    SubsetSize(OwnersOf(after) - {id}, OwnersOf(ns));
  }

  lemma NewOne(cr: ValkeyCluster, h: string, lo: nat, i: nat)
    requires lo <= i
    ensures IsNew(cr, h, lo, i + 1) <==> IsNew(cr, h, lo, i) || h == PodFQDN(cr, i, 0)
    ensures !IsNew(cr, PodFQDN(cr, i, 0), lo, i)
  {
    hide PodFQDN, PodIndex;
    assert Shard(cr, PodFQDN(cr, i, 0)) == i && Ordinal(cr, PodFQDN(cr, i, 0)) == 0;
  }

  lemma PodIsNew(cr: ValkeyCluster, i: nat, lo: nat)
    requires lo <= i < cr.shards
    ensures IsNew(cr, PodFQDN(cr, i, 0), lo, cr.shards)
  {
    hide PodFQDN, PodIndex;
  }

  lemma FillStep(cr: ValkeyCluster, ns: Nodes, now: Nodes, after: Nodes, lo: nat, i: nat, src: string)
    requires cr.shards > 0 && lo <= i && AllProper(ns) && AllProper(now) && Filled(cr, ns, now, lo, i)
    requires var id := PodFQDN(cr, i, 0);
             var share := TOTAL_SLOTS / cr.shards;
             id in ns && (FilledBy(now, after, id, share, src) || (now[id].SlotCount() >= share && after == now))
    ensures Filled(cr, ns, after, lo, i + 1)
  {
    hide Total, CountRanges, SlotsMoved, NodeInfo.OwnsSlots, PodFQDN, PodIndex, Proper, OwnersOf, IsNew, AllProper;
    var id := PodFQDN(cr, i, 0);
    var share := TOTAL_SLOTS / cr.shards;
    CountsArePositive(now);
    if now[id].SlotCount() < share {
      MoveShifts(now, src, id, share - now[id].SlotCount());
    }
    OneMoreOwner(now, after, id, i);
    forall h | h in ns
      ensures FilledNode(ns[h], after[h], share, IsNew(cr, h, lo, i + 1))
    {
      NewOne(cr, h, lo, i);
      assert FilledNode(ns[h], now[h], share, IsNew(cr, h, lo, i));
    }
  }

  lemma CountsArePositive(ns: Nodes)
    requires AllProper(ns)
    ensures forall h | h in ns :: ns[h].SlotCount() >= 0
  {
    forall h | h in ns
      ensures ns[h].SlotCount() >= 0
    {
      ProperNode(ns[h]);
    }
  }

  /** Bring the primary of every new shard up to its fair share. */
  method FillShards(f: FakeCluster, cr: ValkeyCluster, lo: nat)
    requires AllProper(f.nodes) && "" !in f.nodes && cr.shards > 0
    requires forall i: nat | lo <= i < cr.shards :: PodFQDN(cr, i, 0) in f.nodes
    modifies f
    ensures AllProper(f.nodes) && f.nodes.Keys == old(f.nodes.Keys) && Total(f.nodes) == Total(old(f.nodes))
    ensures lo <= cr.shards && Total(old(f.nodes)) == TOTAL_SLOTS && |OwnersOf(old(f.nodes))| <= lo ==>
              Filled(cr, old(f.nodes), f.nodes, lo, cr.shards)
    ensures NoGain(cr, old(f.nodes), f.nodes, lo)
  {
    hide Total, CountRanges, SlotsMoved, NodeInfo.OwnsSlots, PodFQDN, PodIndex, Proper, OwnersOf, AllProper;
    hide FilledBy, IsNew;
    ghost var ns := f.nodes;
    NoGainNone(cr, ns, lo);
    ghost var crowded := lo <= cr.shards && Total(ns) == TOTAL_SLOTS && |OwnersOf(ns)| <= lo;
    if crowded {
      FilledNone(cr, ns, lo);
    }
    var i := lo;
    while i < cr.shards
      invariant lo <= i && (lo <= cr.shards ==> i <= cr.shards)
      invariant AllProper(f.nodes) && f.nodes.Keys == ns.Keys && Total(f.nodes) == Total(ns)
      invariant crowded ==> Filled(cr, ns, f.nodes, lo, i)
      invariant NoGain(cr, ns, f.nodes, lo)
    {
      var id := f.MyID(PodFQDN(cr, i, 0));
      ghost var now := f.nodes;
      ghost var src := FillPrimary(f, id, cr.shards);
      PodIsNew(cr, i, lo);
      NoGainFill(cr, ns, now, f.nodes, lo, id);
      if crowded {
        SubsetSize(OwnersOf(now) - {id}, OwnersOf(now));
        assert Crowded(now, id, cr.shards);
        FillStep(cr, ns, now, f.nodes, lo, i, src);
      }
      i := i + 1;
    }
  }

  /** Only the first pods of the shards from `lo` on may have gained slots. */
  ghost predicate NoGain(cr: ValkeyCluster, ns: Nodes, after: Nodes, lo: nat) {
    forall h | h in after && !IsNew(cr, h, lo, cr.shards) ::
      after[h].SlotCount() <= if h in ns then ns[h].SlotCount() else 0
  }

  lemma NoGainNone(cr: ValkeyCluster, ns: Nodes, lo: nat)
    ensures NoGain(cr, ns, ns, lo)
  {
  }

  lemma NoGainFill(cr: ValkeyCluster, ns: Nodes, now: Nodes, after: Nodes, lo: nat, id: string)
    requires NoGain(cr, ns, now, lo) && after.Keys == now.Keys && IsNew(cr, id, lo, cr.shards)
    requires forall h | h in after && h != id :: after[h].SlotCount() <= now[h].SlotCount()
    ensures NoGain(cr, ns, after, lo)
  {
    hide CountRanges, IsNew;
  }

  /** Attaching before and after the fill gives nobody slots either. */
  lemma NoGainAround(cr: ValkeyCluster, ns: Nodes, joined: Nodes, attached: Nodes, filled: Nodes, after: Nodes, lo: nat)
    requires Grown(ns, joined) && Grown(joined, attached) && NoGain(cr, attached, filled, lo) && Grown(filled, after)
    requires AllProper(ns)
    ensures NoGain(cr, ns, after, lo)
  {
    hide CountRanges, IsNew, Proper;
    CountsArePositive(ns);
    GrownOn(ns, joined, attached);
  }

  lemma FilledNone(cr: ValkeyCluster, ns: Nodes, lo: nat)
    requires cr.shards > 0 && AllProper(ns) && |OwnersOf(ns)| <= lo
    ensures Filled(cr, ns, ns, lo, lo)
  {
    hide Total, CountRanges, OwnersOf, PodFQDN, PodIndex;
  }

  // ---- joining the new pods ----

  /** `h` is a pod of a new shard, before ordinal j of shard i. */
  predicate NewPod(cr: ValkeyCluster, h: string, lo: nat, i: nat, j: nat) {
    IsPod(cr, h) && lo <= Shard(cr, h) && (Shard(cr, h) < i || (Shard(cr, h) == i && Ordinal(cr, h) < j))
  }

  /** The new pods have joined as empty masters. */
  ghost predicate Joins(cr: ValkeyCluster, ns: Nodes, after: Nodes, lo: nat, i: nat, j: nat) {
    && (forall h :: h in after <==> h in ns || NewPod(cr, h, lo, i, j))
    && (forall h | h in after :: after[h] == if h in ns then ns[h] else Fresh(h))
  }

  lemma NewPodNext(cr: ValkeyCluster, h: string, lo: nat, i: nat, j: nat)
    requires lo <= i && j <= cr.replicas
    ensures NewPod(cr, h, lo, i, j + 1) <==> NewPod(cr, h, lo, i, j) || h == PodFQDN(cr, i, j)
  {
    hide PodFQDN, PodIndex;
    assert Shard(cr, PodFQDN(cr, i, j)) == i && Ordinal(cr, PodFQDN(cr, i, j)) == j;
  }

  lemma JoinNext(cr: ValkeyCluster, ns: Nodes, after: Nodes, lo: nat, i: nat, j: nat)
    requires lo <= i && j <= cr.replicas && Joins(cr, ns, after, lo, i, j)
    ensures Joins(cr, ns, Ensure(after, PodFQDN(cr, i, j)), lo, i, j + 1)
  {
    hide NewPod, PodFQDN, Fresh;
    var h0 := PodFQDN(cr, i, j);
    forall h
      ensures h in Ensure(after, h0) <==> h in ns || NewPod(cr, h, lo, i, j + 1)
    {
      NewPodNext(cr, h, lo, i, j);
    }
  }

  lemma JoinShardDone(cr: ValkeyCluster, ns: Nodes, after: Nodes, lo: nat, i: nat)
    requires Joins(cr, ns, after, lo, i, cr.replicas + 1)
    ensures Joins(cr, ns, after, lo, i + 1, 0)
  {
    hide PodFQDN, PodIndex, Fresh;
  }

  lemma JoinedPods(cr: ValkeyCluster, ns: Nodes, after: Nodes, lo: nat, hi: nat)
    requires lo <= hi && Joins(cr, ns, after, lo, hi, 0)
    ensures forall i: nat, j: nat | lo <= i < hi && j <= cr.replicas :: PodFQDN(cr, i, j) in after
    ensures "" !in ns ==> "" !in after
  {
    hide PodFQDN, PodIndex, Fresh;
    forall i: nat, j: nat | lo <= i < hi && j <= cr.replicas
      ensures PodFQDN(cr, i, j) in after
    {
      assert NewPod(cr, PodFQDN(cr, i, j), lo, hi, 0);
    }
  }

  lemma JoinNone(cr: ValkeyCluster, ns: Nodes, lo: nat)
    ensures Joins(cr, ns, ns, lo, lo, 0)
  {
    hide PodFQDN, PodIndex, Fresh;
  }

  /** Introduce every pod of the shards from `lo` on to the seed. */
  method JoinShards(f: FakeCluster, cr: ValkeyCluster, lo: nat)
    requires AllProper(f.nodes) && lo <= cr.shards
    modifies f
    ensures AllProper(f.nodes)
    ensures lo < cr.shards ==> Joins(cr, Ensure(old(f.nodes), PodFQDN(cr, 0, 0)), f.nodes, lo, cr.shards, 0)
    ensures lo == cr.shards ==> f.nodes == old(f.nodes)
  {
    hide PodFQDN, PodIndex, Fresh, Proper, Joins;
    var seed := PodFQDN(cr, 0, 0);
    ghost var ns := Ensure(f.nodes, seed);
    JoinNone(cr, ns, lo);
    for i := lo to cr.shards
      invariant AllProper(f.nodes)
      invariant Joins(cr, ns, Ensure(f.nodes, seed), lo, i, 0) && (i > lo ==> seed in f.nodes)
      invariant i == lo ==> f.nodes == old(f.nodes)
    {
      for j := 0 to cr.replicas + 1
        invariant AllProper(f.nodes)
        invariant Joins(cr, ns, Ensure(f.nodes, seed), lo, i, j) && (i > lo || j > 0 ==> seed in f.nodes)
      {
        JoinNext(cr, ns, Ensure(f.nodes, seed), lo, i, j);
        f.Meet(seed, PodFQDN(cr, i, j));
      }
      JoinShardDone(cr, ns, f.nodes, lo, i);
    }
  }

  // ---- the same pods under another shard count ----

  lemma SamePods(cr: ValkeyCluster, k: nat)
    ensures forall i: nat, j: nat :: PodFQDN(cr.(shards := k), i, j) == PodFQDN(cr, i, j)
    ensures forall h :: PodIndex(cr.(shards := k), h) == PodIndex(cr, h)
  {
    hide ReadPair;
  }

  lemma {:induction false} SameOwnerOrd(ns: Nodes, cr: ValkeyCluster, k: nat, i: nat, j: nat)
    ensures FirstOwner(ns, cr.(shards := k), i, j) == FirstOwner(ns, cr, i, j)
    decreases cr.replicas + 1 - j
  {
    SamePods(cr, k);
    hide PodFQDN, CountRanges;
    if j <= cr.replicas {
      SameOwnerOrd(ns, cr, k, i, j + 1);
    }
  }

  lemma SameRoles(ns: Nodes, cr: ValkeyCluster, k: nat, h: string)
    ensures IsPod(cr.(shards := k), h) <==> IsPod(cr, h)
    ensures Shard(cr.(shards := k), h) == Shard(cr, h) && Ordinal(cr.(shards := k), h) == Ordinal(cr, h)
    ensures PrimaryFor(ns, cr.(shards := k), h) == PrimaryFor(ns, cr, h)
  {
    SamePods(cr, k);
    SameOwnerOrd(ns, cr, k, Shard(cr, h), 0);
    hide PodFQDN, PodIndex, FirstOwner;
  }

  // ---- from joined to converged ----

  /** The pod owns slots exactly when it is the primary of one of the first k shards. */
  predicate OwnsBelow(cr: ValkeyCluster, ns: Nodes, h: string, k: nat)
    requires h in ns
  {
    ns[h].OwnsSlots() <==> h == PrimaryFor(ns, cr, h) && Shard(cr, h) < k
  }

  /** All pods are in, but only the first k shards have slots. */
  ghost predicate Joined(cr: ValkeyCluster, ns: Nodes, k: nat) {
    OneOwner(cr, ns) && Total(ns) == TOTAL_SLOTS && forall h | h in ns :: OwnsBelow(cr, ns, h, k)
  }

  /** Nodes without slots do not count. */
  lemma {:induction false} EmptyNodesCountNothing(ns: Nodes, more: Nodes)
    requires ns.Keys <= more.Keys
    requires forall h | h in more :: if h in ns then more[h] == ns[h] else more[h].SlotCount() == 0
    ensures Total(more) == Total(ns)
    decreases |more|
  {
    hide Total, CountRanges;
    if h :| h in more && h !in ns {
      TotalSplit(more, h);
      EmptyNodesCountNothing(ns, more - {h});
    } else {
      assert more == ns;
    }
  }

  lemma FreshOwnsNothing(h: string)
    ensures !Fresh(h).OwnsSlots() && Proper(Fresh(h)) && Fresh(h).SlotCount() == 0
  {
    ProperNode(Fresh(h));
  }

  lemma JoinedSamePrimary(cr: ValkeyCluster, ns: Nodes, after: Nodes, lo: nat, i: nat)
    requires Joins(cr, ns, after, lo, cr.shards, 0)
    ensures ShardPrimary(after, cr, i) == ShardPrimary(ns, cr, i)
  {
    hide PodFQDN, PodIndex, Fresh, NodeInfo.OwnsSlots, NewPod, ShardPrimary;
    forall j: nat | j <= cr.replicas
      ensures OwnerAt(after, cr, i, j) <==> OwnerAt(ns, cr, i, j)
    {
      FreshOwnsNothing(PodFQDN(cr, i, j));
    }
    SamePrimary(after, ns, cr, i);
  }

  /** All slots are assigned, to k nodes, and there are only declared pods; any of them may be missing. */
  ghost predicate Growable(cr: ValkeyCluster, ns: Nodes, k: nat) {
    && AllProper(ns) && (forall h | h in ns :: Declared(cr, h))
    && Total(ns) == TOTAL_SLOTS && |OwnersOf(ns)| == k
  }

  lemma JoinedPlaced(cr: ValkeyCluster, ns: Nodes, after: Nodes, k: nat)
    requires Growable(cr, ns, k) && Joins(cr, ns, after, 0, cr.shards, 0)
    ensures Placed(cr, after)
  {
    hide PodFQDN, PodIndex, Fresh, CountRanges, Proper, Total, OwnersOf;
    JoinedPods(cr, ns, after, 0, cr.shards);
    forall h | h in after
      ensures Declared(cr, h) && after[h].id == h && after[h].host == h && Proper(after[h])
    {
      FreshOwnsNothing(h);
      FreshIs(h);
    }
  }

  /** k owners in k shards that all have one: nobody else owns slots. */
  lemma OwnersExact(cr: ValkeyCluster, ns: Nodes, k: nat)
    requires |OwnersOf(ns)| == k && FirstOwn(cr, ns, k)
    ensures forall h | h in ns :: OwnsBelow(cr, ns, h, k)
  {
    hide PodFQDN, PodIndex, ShardPrimary, Shard, NodeInfo.OwnsSlots;
    var hosts := PrimaryHosts(ns, cr, k);
    forall h
      ensures h in hosts <==> Shard(cr, h) < k && h == PrimaryFor(ns, cr, h)
    {
      InPrimaryHosts(ns, cr, k, h);
    }
    forall h | h in hosts
      ensures h in OwnersOf(ns)
    {
      PrimaryForIs(cr, ns, h);
    }
    PrimaryHostsCounted(ns, cr, k);
    FullSubset(hosts, OwnersOf(ns));
  }

  lemma FreshIs(h: string)
    ensures Fresh(h).id == h && Fresh(h).host == h
  {
  }

  lemma JoinedOwns(cr: ValkeyCluster, ns: Nodes, after: Nodes, k: nat, h: string)
    requires FirstOwn(cr, ns, k) && Joins(cr, ns, after, 0, cr.shards, 0)
    requires h in after && (h in ns ==> OwnsBelow(cr, ns, h, k))
    ensures OwnsBelow(cr, after, h, k)
  {
    hide PodFQDN, PodIndex, Fresh, CountRanges, ShardPrimary;
    JoinedSamePrimary(cr, ns, after, 0, Shard(cr, h));
    FreshOwnsNothing(h);
  }

  lemma JoinedGrows(cr: ValkeyCluster, ns: Nodes, after: Nodes, k: nat)
    requires k <= cr.shards && Growable(cr, ns, k) && FirstOwn(cr, ns, k) && Joins(cr, ns, after, 0, cr.shards, 0)
    ensures Joined(cr, after, k)
  {
    hide *;
    JoinedPlaced(cr, ns, after, k);
    JoinedTotal(cr, ns, after, k);
    GrowableCount(cr, ns, k);
    OwnersExact(cr, ns, k);
    forall h | h in after
      ensures OwnsBelow(cr, after, h, k)
    {
      JoinedOwns(cr, ns, after, k, h);
    }
    JoinedIf(cr, after, k);
  }

  lemma GrowableCount(cr: ValkeyCluster, ns: Nodes, k: nat)
    requires Growable(cr, ns, k)
    ensures |OwnersOf(ns)| == k
  {
  }

  lemma JoinedTotal(cr: ValkeyCluster, ns: Nodes, after: Nodes, k: nat)
    requires Growable(cr, ns, k) && Joins(cr, ns, after, 0, cr.shards, 0)
    ensures Total(after) == TOTAL_SLOTS
  {
    hide Fresh, Total, NewPod, Known, Declared, OwnersOf, AllProper, CountRanges;
    forall h | h in after && h !in ns
      ensures after[h].SlotCount() == 0
    {
      FreshOwnsNothing(h);
    }
    EmptyNodesCountNothing(ns, after);
  }

  lemma JoinedIf(cr: ValkeyCluster, ns: Nodes, k: nat)
    requires Placed(cr, ns) && Total(ns) == TOTAL_SLOTS && forall h | h in ns :: OwnsBelow(cr, ns, h, k)
    ensures Joined(cr, ns, k)
  {
    hide Placed, Total, ShardPrimary, NodeInfo.OwnsSlots, Shard;
    assert forall h | h in ns :: OwnsBelow(cr, ns, h, k);
  }

  /** A healthy cluster of k shards can grow. */
  lemma HealthyGrows(cr: ValkeyCluster, ns: Nodes, k: nat)
    requires k <= cr.shards && Healthy(cr.(shards := k), ns)
    ensures Growable(cr, ns, k) && FirstOwn(cr, ns, k)
  {
    var was := cr.(shards := k);
    SamePods(cr, k);
    hide PodFQDN, PodIndex, ShardPrimary, NodeInfo.OwnsSlots, AllProper, Total, PrimaryFor;
    assert Known(was, ns, k);
    forall h | h in ns
      ensures Declared(cr, h)
    {
      SameRoles(ns, cr, k, h);
      assert Declared(was, h);
    }
    forall h
      ensures h in OwnersOf(ns) <==> h in PrimaryHosts(ns, was, k)
    {
      HealthyOwner(was, ns, h);
      InPrimaryHosts(ns, was, k, h);
    }
    assert OwnersOf(ns) == PrimaryHosts(ns, was, k);
    PrimaryHostsCounted(ns, was, k);
    forall i: nat | i < k
      ensures ShardPrimary(ns, cr, i) in ns && ns[ShardPrimary(ns, cr, i)].OwnsSlots()
    {
      var p := ShardPrimary(ns, cr, i);
      PrimaryIs(ns, cr, i);
      OwnPrimary(cr, ns, i);
      SameRoles(ns, cr, k, p);
      HealthyOwner(was, ns, p);
    }
  }

  lemma OwnPrimary(cr: ValkeyCluster, ns: Nodes, i: nat)
    ensures PrimaryFor(ns, cr, ShardPrimary(ns, cr, i)) == ShardPrimary(ns, cr, i)
  {
    PrimaryIs(ns, cr, i);
    hide ShardPrimary, Shard;
  }

  lemma AttachedJoined(cr: ValkeyCluster, ns: Nodes, k: nat)
    requires Joined(cr, ns, k)
    ensures var after := Attach(ns, ns, cr);
            Joined(cr, after, k) && after.Keys == ns.Keys && forall h | h in after :: FollowsDuly(cr, after, h)
  {
    hide PodFQDN, PodIndex, NodeInfo.OwnsSlots, ShardPrimary, Total, Attach, FollowsDuly, Known, AllProper;
    hide OwnsDuly, Shard, IsPod;
    var after := Attach(ns, ns, cr);
    AttachSame(cr, ns);
    SameKnown(cr, ns, after);
    forall h | h in after
      ensures FollowsDuly(cr, after, h) && OwnsBelow(cr, after, h, k) && Declared(cr, h)
    {
      AttachDuly(cr, ns, h);
      AttachOne(cr, ns, h);
      assert OwnsBelow(cr, ns, h, k) && Declared(cr, h);
    }
  }

  lemma JoinedOwners(cr: ValkeyCluster, ns: Nodes, k: nat)
    requires Joined(cr, ns, k)
    ensures |OwnersOf(ns)| <= k
  {
    hide NodeInfo.OwnsSlots, ShardPrimary, Total, OneOwner, PrimaryFor, Shard;
    forall h | h in OwnersOf(ns)
      ensures h in PrimaryHosts(ns, cr, k)
    {
      assert OwnsBelow(cr, ns, h, k);
      InPrimaryHosts(ns, cr, k, h);
    }
    PrimaryHostsCounted(ns, cr, k);
    SubsetSize(OwnersOf(ns), PrimaryHosts(ns, cr, k));
  }

  lemma FilledNodeOwns(a: NodeInfo, b: NodeInfo, share: int, isNew: bool)
    requires Proper(a) && Proper(b) && FilledNode(a, b, share, isNew) && share >= 1 && (isNew ==> !a.OwnsSlots())
    ensures b.OwnsSlots() <==> a.OwnsSlots() || isNew
  {
    hide CountRanges, Proper, NodeInfo.OwnsSlots;
    ProperNode(a);
    ProperNode(b);
  }

  /** Who owns slots once the new primaries are filled. */
  lemma FilledOwner(cr: ValkeyCluster, ns: Nodes, after: Nodes, k: nat, h: string)
    requires 0 < cr.shards <= TOTAL_SLOTS && Joined(cr, ns, k) && Filled(cr, ns, after, k, cr.shards) && h in ns
    ensures after[h].OwnsSlots() <==> ns[h].OwnsSlots() || IsNew(cr, h, k, cr.shards)
  {
    hide PodFQDN, PodIndex, CountRanges, ShardPrimary, Total, Proper, NodeInfo.OwnsSlots, FilledNode;
    assert OwnsBelow(cr, ns, h, k);
    ShareIsPositive(cr.shards);
    FilledNodeOwns(ns[h], after[h], TOTAL_SLOTS / cr.shards, IsNew(cr, h, k, cr.shards));
  }

  lemma FilledSamePrimary(cr: ValkeyCluster, ns: Nodes, after: Nodes, k: nat, i: nat)
    requires 0 < cr.shards <= TOTAL_SLOTS && Joined(cr, ns, k) && Filled(cr, ns, after, k, cr.shards) && i < cr.shards
    ensures ShardPrimary(after, cr, i) == ShardPrimary(ns, cr, i)
    ensures i >= k ==> ShardPrimary(ns, cr, i) == PodFQDN(cr, i, 0)
  {
    hide PodFQDN, PodIndex, CountRanges, ShardPrimary, Total, AllProper, FilledNode, NodeInfo.OwnsSlots;
    forall j: nat | j <= cr.replicas
      ensures i < k ==> (OwnerAt(after, cr, i, j) <==> OwnerAt(ns, cr, i, j))
      ensures i >= k && j > 0 ==> !OwnerAt(after, cr, i, j) && !OwnerAt(ns, cr, i, j)
    {
      var h := PodFQDN(cr, i, j);
      assert Shard(cr, h) == i && Ordinal(cr, h) == j;
      assert h in ns && OwnsBelow(cr, ns, h, k);
      FilledOwner(cr, ns, after, k, h);
    }
    if i < k {
      SamePrimary(after, ns, cr, i);
    } else {
      NoOwner(after, cr, i);
      NoOwner(ns, cr, i);
    }
  }

  lemma FilledDuly(cr: ValkeyCluster, ns: Nodes, after: Nodes, k: nat, h: string)
    requires 0 < cr.shards <= TOTAL_SLOTS && Joined(cr, ns, k) && Filled(cr, ns, after, k, cr.shards) && h in ns
    requires FollowsDuly(cr, ns, h)
    ensures OwnsDuly(cr, after, h) && FollowsDuly(cr, after, h)
  {
    assert OwnsBelow(cr, ns, h, k) && Declared(cr, h);
    FilledOwner(cr, ns, after, k, h);
    FilledSamePrimary(cr, ns, after, k, Shard(cr, h));
    assert FilledNode(ns[h], after[h], TOTAL_SLOTS / cr.shards, IsNew(cr, h, k, cr.shards));
    hide PodFQDN, PodIndex, CountRanges, ShardPrimary, Total, AllProper, NodeInfo.OwnsSlots, Filled, Joined;
  }

  lemma FilledConverges(cr: ValkeyCluster, ns: Nodes, after: Nodes, k: nat)
    requires 0 < cr.shards <= TOTAL_SLOTS && Joined(cr, ns, k) && Filled(cr, ns, after, k, cr.shards)
    requires forall h | h in ns :: FollowsDuly(cr, ns, h)
    ensures Converged(cr, after)
  {
    hide PodFQDN, PodIndex, NodeInfo.OwnsSlots, ShardPrimary, Total, Known, AllProper, OwnsDuly, FollowsDuly;
    hide FilledNode, OwnsBelow, Declared;
    SameKnown(cr, ns, after);
    forall h | h in ns
      ensures OwnsDuly(cr, after, h) && FollowsDuly(cr, after, h)
    {
      FilledDuly(cr, ns, after, k, h);
    }
    assert Healthy(cr, after);
  }

  /** Join the new shards, attach their replicas, and fill their primaries. From k owners holding all slots this
      converges on the declared shards exactly when those owners are in the first k of them, wherever an earlier
      attempt stopped. Then every new primary has exactly the fair share and no shard was emptied. From
      any start, every declared pod ends up wired to its shard's primary. */
  method ScaleOut(f: FakeCluster, cr: ValkeyCluster, oldShards: nat)
    requires AllProper(f.nodes) && "" !in f.nodes && oldShards < cr.shards
    modifies f
    ensures AllProper(f.nodes) && Total(f.nodes) <= Total(old(f.nodes))
    ensures NoGain(cr, old(f.nodes), f.nodes, oldShards) && AllFollow(cr, f.nodes)
    ensures 0 < oldShards && cr.shards <= TOTAL_SLOTS && Growable(cr, old(f.nodes), oldShards) ==>
              (Converged(cr, f.nodes) <==> FirstOwn(cr, old(f.nodes), oldShards))
    ensures (0 < oldShards && cr.shards <= TOTAL_SLOTS && Growable(cr, old(f.nodes), oldShards)
             && FirstOwn(cr, old(f.nodes), oldShards)) ==>
              && (forall i: nat | oldShards <= i < cr.shards ::
                    PodFQDN(cr, i, 0) in f.nodes && f.nodes[PodFQDN(cr, i, 0)].SlotCount() == TOTAL_SLOTS / cr.shards)
              && (forall h | h in old(f.nodes) && old(f.nodes)[h].OwnsSlots() :: h in f.nodes && f.nodes[h].OwnsSlots())
  {
    hide *;
    ghost var ns := f.nodes;
    ghost var fine :=
      0 < oldShards && cr.shards <= TOTAL_SLOTS && Growable(cr, ns, oldShards) && FirstOwn(cr, ns, oldShards);
    JoinShards(f, cr, oldShards);
    ghost var joined := f.nodes;
    ScaleOutJoined(cr, ns, joined, oldShards);
    var st := f.State();
    ObservedList(st, f.nodes);
    var idx := IndexByID(st.nodes, f.nodes);
    ghost var met := AttachReplicas(f, cr, idx);
    ghost var attached := f.nodes;
    StillThere(cr, joined, attached, oldShards);
    if fine {
      MetAll(cr, ns, joined, met, oldShards);
      JoinedGrows(cr, ns, met, oldShards);
      AttachedJoined(cr, met, oldShards);
      JoinedOwners(cr, attached, oldShards);
      JoinedCovers(cr, attached, oldShards);
    }
    FillShards(f, cr, oldShards);
    ghost var filled := f.nodes;
    if fine {
      FilledConverges(cr, attached, filled, oldShards);
      AttachIsIdle(cr, filled);
      ConvergedKnows(cr, filled);
      ScaleOutCounts(cr, ns, met, filled, oldShards);
    }
    st := f.State();
    ObservedList(st, f.nodes);
    idx := IndexByID(st.nodes, f.nodes);
    ghost var _ := AttachReplicas(f, cr, idx);
    NoGainAround(cr, ns, joined, attached, filled, f.nodes, oldShards);
    GrownTotal(ns, joined);
    GrownTotal(joined, attached);
    GrownTotal(filled, f.nodes);
    if Converged(cr, f.nodes) {
      OwnedBefore(cr, ns, f.nodes, oldShards);
    }
  }

  /** A converged cluster in which the first k shards gained nothing had an owner in each of them before. */
  lemma OwnedBefore(cr: ValkeyCluster, ns: Nodes, after: Nodes, k: nat)
    requires AllProper(ns) && k <= cr.shards && NoGain(cr, ns, after, k) && Converged(cr, after)
    ensures FirstOwn(cr, ns, k)
  {
    hide PodFQDN, PodIndex, CountRanges, ShardPrimary, Total, Proper, NodeInfo.OwnsSlots, Healthy, FollowsDuly;
    ConvergedHealthy(cr, after);
    forall i: nat | i < k
      ensures ShardPrimary(ns, cr, i) in ns && ns[ShardPrimary(ns, cr, i)].OwnsSlots()
    {
      var p := ShardPrimary(after, cr, i);
      PrimaryIs(after, cr, i);
      OwnPrimary(cr, after, i);
      HealthyOwner(cr, after, p);
      assert !IsNew(cr, p, k, cr.shards);
      OwnerCounts(after[p]);
      ProperNode(ns[p]);
      PrimaryIs(ns, cr, i);
      assert p == PodFQDN(cr, i, Ordinal(cr, p));
    }
  }

  lemma OwnerCounts(n: NodeInfo)
    requires n.OwnsSlots()
    ensures n.SlotCount() > 0
  {
  }

  lemma ShareIsPositive(shards: nat)
    requires 0 < shards <= TOTAL_SLOTS
    ensures TOTAL_SLOTS / shards >= 1
  {
  }

  lemma ObservedList(st: ClusterState, ns: Nodes)
    requires Observes(st, ns)
    ensures Lists(st.nodes, ns)
  {
  }

  lemma StillThere(cr: ValkeyCluster, joined: Nodes, attached: Nodes, k: nat)
    requires Grown(joined, attached) && "" !in joined
    requires forall i: nat | k <= i < cr.shards :: PodFQDN(cr, i, 0) in joined
    ensures "" !in attached && forall i: nat | k <= i < cr.shards :: PodFQDN(cr, i, 0) in attached
  {
    hide PodFQDN;
  }

  lemma ConvergedKnows(cr: ValkeyCluster, ns: Nodes)
    requires Converged(cr, ns)
    ensures Known(cr, ns, cr.shards)
  {
    hide PodFQDN, Total, AllProper;
  }

  lemma JoinedCovers(cr: ValkeyCluster, ns: Nodes, k: nat)
    requires Joined(cr, ns, k)
    ensures Total(ns) == TOTAL_SLOTS
  {
    hide Total;
  }

  lemma ScaleOutJoined(cr: ValkeyCluster, ns: Nodes, joined: Nodes, k: nat)
    requires k < cr.shards && Joins(cr, Ensure(ns, PodFQDN(cr, 0, 0)), joined, k, cr.shards, 0) && "" !in ns
    ensures (forall i: nat | k <= i < cr.shards :: PodFQDN(cr, i, 0) in joined) && "" !in joined && Grown(ns, joined)
  {
    hide PodFQDN, PodIndex, Fresh, Joins, Grown;
    var seed := PodFQDN(cr, 0, 0);
    JoinedPods(cr, Ensure(ns, seed), joined, k, cr.shards);
    EnsureGrows(ns, seed);
    JoinsGrow(cr, Ensure(ns, seed), joined, k);
    GrownOn(ns, Ensure(ns, seed), joined);
  }

  /** Once the replicas are attached all declared pods are in, those that were missing as newcomers, and attached as if
      they had been observed. */
  lemma MetAll(cr: ValkeyCluster, ns: Nodes, joined: Nodes, met: Nodes, k: nat)
    requires k < cr.shards && Joins(cr, Ensure(ns, PodFQDN(cr, 0, 0)), joined, k, cr.shards, 0)
    requires Meeting(cr, joined, met) && Known(cr, met, cr.shards)
    ensures Joins(cr, ns, met, 0, cr.shards, 0) && Attach(met, joined, cr) == Attach(met, met, cr)
  {
    hide PodFQDN, PodIndex, Fresh, ShardPrimary;
    var seed := PodFQDN(cr, 0, 0);
    assert Shard(cr, seed) == 0 && Ordinal(cr, seed) == 0 && Declared(cr, seed);
    forall h
      ensures NewPod(cr, h, 0, cr.shards, 0) <==> Declared(cr, h)
      ensures Declared(cr, h) ==> h in met
    {
      assert Declared(cr, h) ==> h == PodFQDN(cr, Shard(cr, h), Ordinal(cr, h));
    }
    assert Joins(cr, joined, met, 0, cr.shards, 0);
    SameAttach(cr, joined, met);
  }

  lemma SameAttach(cr: ValkeyCluster, joined: Nodes, met: Nodes)
    requires Joins(cr, joined, met, 0, cr.shards, 0)
    ensures Attach(met, joined, cr) == Attach(met, met, cr)
  {
    hide PodFQDN, PodIndex, ShardPrimary, IsPod, Shard, NewPod;
    forall h | h in met
      ensures Unattached(joined, cr, h) <==> Unattached(met, cr, h)
      ensures ShardPrimary(met, cr, Shard(cr, h)) == ShardPrimary(joined, cr, Shard(cr, h))
    {
      JoinedSamePrimary(cr, joined, met, 0, Shard(cr, h));
      NotEmpty(met, cr, Shard(cr, h));
    }
  }

  lemma JoinsGrow(cr: ValkeyCluster, ns: Nodes, joined: Nodes, k: nat)
    requires Joins(cr, ns, joined, k, cr.shards, 0)
    ensures Grown(ns, joined)
  {
    hide Fresh, CountRanges, PodFQDN, PodIndex;
    forall h | h in joined && h !in ns
      ensures joined[h].SlotCount() == 0 && h != ""
    {
      FreshOwnsNothing(h);
      assert NewPod(cr, h, k, cr.shards, 0);
    }
  }

  /** The new primaries have the fair share, and every owner still owns slots. */
  lemma ScaleOutCounts(cr: ValkeyCluster, ns: Nodes, joined: Nodes, after: Nodes, k: nat)
    requires k < cr.shards <= TOTAL_SLOTS && Joined(cr, joined, k) && Joins(cr, ns, joined, 0, cr.shards, 0)
    requires Joined(cr, Attach(joined, joined, cr), k) && Filled(cr, Attach(joined, joined, cr), after, k, cr.shards)
    ensures forall i: nat | k <= i < cr.shards ::
              PodFQDN(cr, i, 0) in after && after[PodFQDN(cr, i, 0)].SlotCount() == TOTAL_SLOTS / cr.shards
    ensures forall h | h in ns && ns[h].OwnsSlots() :: h in after && after[h].OwnsSlots()
  {
    hide *;
    forall i: nat | k <= i < cr.shards
      ensures PodFQDN(cr, i, 0) in after && after[PodFQDN(cr, i, 0)].SlotCount() == TOTAL_SLOTS / cr.shards
    {
      NewShare(cr, Attach(joined, joined, cr), after, k, i);
    }
    forall h | h in ns && ns[h].OwnsSlots()
      ensures h in after && after[h].OwnsSlots()
    {
      StillOwns(cr, ns, joined, after, k, h);
    }
  }

  lemma NewShare(cr: ValkeyCluster, ns: Nodes, after: Nodes, k: nat, i: nat)
    requires k <= i < cr.shards <= TOTAL_SLOTS && Joined(cr, ns, k) && Filled(cr, ns, after, k, cr.shards)
    ensures PodFQDN(cr, i, 0) in after && after[PodFQDN(cr, i, 0)].SlotCount() == TOTAL_SLOTS / cr.shards
  {
    hide PodFQDN, PodIndex, CountRanges, NodeInfo.OwnsSlots, ShardPrimary, Total, Proper;
    var h := PodFQDN(cr, i, 0);
    PodIsNew(cr, i, k);
    ShareIsPositive(cr.shards);
    assert h in ns && OwnsBelow(cr, ns, h, k) && Shard(cr, h) == i;
    ProperNode(ns[h]);
    assert FilledNode(ns[h], after[h], TOTAL_SLOTS / cr.shards, IsNew(cr, h, k, cr.shards));
  }

  lemma StillOwns(cr: ValkeyCluster, ns: Nodes, joined: Nodes, after: Nodes, k: nat, h: string)
    requires k < cr.shards <= TOTAL_SLOTS && Joined(cr, joined, k) && Joins(cr, ns, joined, 0, cr.shards, 0)
    requires Joined(cr, Attach(joined, joined, cr), k) && Filled(cr, Attach(joined, joined, cr), after, k, cr.shards)
    requires h in ns && ns[h].OwnsSlots()
    ensures h in after && after[h].OwnsSlots()
  {
    hide PodFQDN, PodIndex, Fresh, CountRanges, NodeInfo.OwnsSlots, ShardPrimary, Total, Proper, FilledNode;
    hide AllProper, Known, NewPod, Shard;
    assert joined[h] == ns[h];
    AttachOne(cr, joined, h);
    FilledOwner(cr, Attach(joined, joined, cr), after, k, h);
  }

  // ---- a scale-out that stalls ----

  /** A node that owns every slot. */
  function Full(h: string): NodeInfo {
    Fresh(h).(slots := [SlotRange(0, TOTAL_SLOTS - 1)])
  }

  lemma FullOwns(h: string)
    ensures Full(h).SlotCount() == TOTAL_SLOTS && Full(h).OwnsSlots() && Proper(Full(h))
    ensures Full(h).id == h && Full(h).host == h && Full(h).masterID == ""
  {
    assert CountRanges([SlotRange(0, TOTAL_SLOTS - 1)]) == TOTAL_SLOTS + CountRanges([]);
  }

  /** Two shards declared, and all slots on the second: the one owner is not in the first shard, so that scaling out
      does not converge. */
  lemma ScaleOutStalls()
    ensures var cr := ValkeyCluster("vc", "default", 2, 0);
            var a, b := PodFQDN(cr, 0, 0), PodFQDN(cr, 1, 0);
            var ns := map[a := Fresh(a), b := Full(b)];
            AllProper(ns) && "" !in ns && Growable(cr, ns, 1) && !FirstOwn(cr, ns, 1)
  {
    hide PodFQDN, PodIndex, Fresh, Full, CountRanges, Total, NodeInfo.OwnsSlots, FirstOwner, Proper;
    var cr := ValkeyCluster("vc", "default", 2, 0);
    var a, b := PodFQDN(cr, 0, 0), PodFQDN(cr, 1, 0);
    var ns := map[a := Fresh(a), b := Full(b)];
    assert Shard(cr, a) == 0 && Ordinal(cr, a) == 0 && Shard(cr, b) == 1 && Ordinal(cr, b) == 0 && a != b;
    FreshIs(a);
    FreshOwnsNothing(a);
    FullOwns(b);
    EmptyTotal();
    TotalUpdate(map[], a, Fresh(a));
    TotalUpdate(map[a := Fresh(a)], b, Full(b));
    assert ns == map[a := Fresh(a)][b := Full(b)];
    assert OwnersOf(ns) == {b};
    assert Known(cr, ns, 1);
    assert Declared(cr, a) && Declared(cr, b);
    PrimaryIs(ns, cr, 0);
    assert ShardPrimary(ns, cr, 0) == a;
  }
}
