/** Who is primary of a shard, who should replicate whom, and which nodes are stale. */
module Membership {
  import opened Wrappers
  import opened Cluster
  import opened Names
  import opened Fake

  // ---- pods ----

  /** `h` is the host of a pod with an ordinal the spec declares, of any shard. */
  predicate IsPod(cr: ValkeyCluster, h: string) {
    PodIndex(cr, h).Some? && Ordinal(cr, h) <= cr.replicas && h == PodFQDN(cr, Shard(cr, h), Ordinal(cr, h))
  }

  function Shard(cr: ValkeyCluster, h: string): nat {
    match PodIndex(cr, h) case Some((i, _)) => i case None => 0
  }

  function Ordinal(cr: ValkeyCluster, h: string): nat {
    match PodIndex(cr, h) case Some((_, j)) => j case None => 0
  }

  /** Every pod of the first `shards` shards is known. */
  ghost predicate Known(cr: ValkeyCluster, ns: Nodes, shards: nat) {
    forall i: nat, j: nat | i < shards && j <= cr.replicas :: PodFQDN(cr, i, j) in ns
  }

  // ---- the primary of a shard ----

  /** The first ordinal from j on whose pod owns slots. */
  function FirstOwner(idx: Nodes, cr: ValkeyCluster, i: nat, j: nat): Option<nat>
    decreases cr.replicas + 1 - j
  {
    if j > cr.replicas then None
    else if PodFQDN(cr, i, j) in idx && idx[PodFQDN(cr, i, j)].OwnsSlots() then Some(j)
    else FirstOwner(idx, cr, i, j + 1)
  }

  /** The ordinal of shard i's primary; 0 while nobody owns slots. */
  function PrimaryOrd(idx: Nodes, cr: ValkeyCluster, i: nat): nat {
    match FirstOwner(idx, cr, i, 0) case Some(j) => j case None => 0
  }

  function ShardPrimary(idx: Nodes, cr: ValkeyCluster, i: nat): string {
    PodFQDN(cr, i, PrimaryOrd(idx, cr, i))
  }

  lemma {:induction false} FirstOwnerIs(idx: Nodes, cr: ValkeyCluster, i: nat, j: nat)
    ensures var o := FirstOwner(idx, cr, i, j);
            && (o.Some? ==> j <= o.value <= cr.replicas
                            && PodFQDN(cr, i, o.value) in idx && idx[PodFQDN(cr, i, o.value)].OwnsSlots())
            && (forall k | j <= k <= cr.replicas && PodFQDN(cr, i, k) in idx && idx[PodFQDN(cr, i, k)].OwnsSlots() ::
                  o.Some? && o.value <= k)
    decreases cr.replicas + 1 - j
  {
    hide PodFQDN, CountRanges;
    if j <= cr.replicas {
      FirstOwnerIs(idx, cr, i, j + 1);
    }
  }

  /** The shard's primary is a declared pod; if any of the shard's pods owns slots, it does. */
  lemma PrimaryIs(idx: Nodes, cr: ValkeyCluster, i: nat)
    ensures PrimaryOrd(idx, cr, i) <= cr.replicas && IsPod(cr, ShardPrimary(idx, cr, i))
    ensures Shard(cr, ShardPrimary(idx, cr, i)) == i && Ordinal(cr, ShardPrimary(idx, cr, i)) == PrimaryOrd(idx, cr, i)
    ensures forall j | 0 <= j <= cr.replicas && PodFQDN(cr, i, j) in idx && idx[PodFQDN(cr, i, j)].OwnsSlots() ::
              ShardPrimary(idx, cr, i) in idx && idx[ShardPrimary(idx, cr, i)].OwnsSlots()
  {
    FirstOwnerIs(idx, cr, i, 0);
    hide PodFQDN, CountRanges, FirstOwner, PodIndex;
  }

  /** Nodes were added, all with a name, and none removed; nobody gained a slot. */
  ghost predicate Grown(ns: Nodes, after: Nodes) {
    && ns.Keys <= after.Keys && ("" in after ==> "" in ns)
    && forall h | h in after :: after[h].SlotCount() <= if h in ns then ns[h].SlotCount() else 0
  }

  lemma GrownOn(a: Nodes, b: Nodes, c: Nodes)
    requires Grown(a, b) && Grown(b, c)
    ensures Grown(a, c)
  {
    hide CountRanges;
  }

  lemma GrownTotal(ns: Nodes, after: Nodes)
    requires Grown(ns, after) && AllProper(ns)
    ensures Total(after) <= Total(ns)
  {
    hide Total, CountRanges, AllProper;
    TotalNoMore(after, ns);
  }

  lemma GrownNone(ns: Nodes)
    ensures Grown(ns, ns)
  {
  }

  lemma EnsureGrows(ns: Nodes, h: string)
    requires h != ""
    ensures Grown(ns, Ensure(ns, h))
  {
    assert CountRanges([]) == 0;
    hide CountRanges;
  }

  lemma ReplicateGrows(ns: Nodes, h: string, primary: string)
    requires h != "" && AllProper(ns)
    ensures Grown(ns, Replicated(ns, h, primary))
  {
    assert CountRanges([]) == 0;
    if h in ns {
      ProperNode(ns[h]);
    }
    hide CountRanges;
  }

  /** The primary found among the pods that answer: the first that owns slots, else ordinal 0, else none. */
  function PrimaryHeard(idx: Nodes, cr: ValkeyCluster, i: nat, silent: set<string>): Option<nat> {
    match FirstOwner(idx - silent, cr, i, 0)
    case Some(j) => Some(j)
    case None => if PodFQDN(cr, i, 0) in silent then None else Some(0)
  }

  lemma AllAnswer(idx: Nodes, cr: ValkeyCluster, i: nat)
    ensures PrimaryHeard(idx, cr, i, {}) == Some(PrimaryOrd(idx, cr, i))
  {
    hide FirstOwner, PodFQDN;
    assert idx - {} == idx;
  }

  /** The host of the primary found; "" if none is. */
  function HeardPrimary(idx: Nodes, cr: ValkeyCluster, i: nat, silent: set<string>): string {
    match PrimaryHeard(idx, cr, i, silent) case Some(j) => PodFQDN(cr, i, j) case None => ""
  }

  /** The node found is there with slots. */
  predicate ShowsSlots(ns: Nodes, p: string) {
    p != "" && p in ns && ns[p].SlotCount() > 0
  }

  lemma AllHeard(idx: Nodes, cr: ValkeyCluster, i: nat)
    ensures HeardPrimary(idx, cr, i, {}) == ShardPrimary(idx, cr, i) != ""
  {
    NotEmpty(idx, cr, i);
    hide PodFQDN, PrimaryHeard;
    AllAnswer(idx, cr, i);
  }

  /** Every slot owner among the shard's declared pods is silent. */
  ghost predicate OwnersSilent(ns: Nodes, cr: ValkeyCluster, i: nat, silent: set<string>) {
    forall j: nat | j <= cr.replicas && OwnerAt(ns, cr, i, j) :: PodFQDN(cr, i, j) in silent
  }

  /** The pods that answer show slots exactly if some slot owner among the shard's declared pods answers. */
  lemma HeardOwns(ns: Nodes, cr: ValkeyCluster, i: nat, silent: set<string>)
    requires AllProper(ns)
    ensures var p := HeardPrimary(ns, cr, i, silent);
            && (ShowsSlots(ns, p) <==> !OwnersSilent(ns, cr, i, silent))
            && (p != "" ==> IsPod(cr, p) && Shard(cr, p) == i && p !in silent)
  {
    hide PodFQDN, CountRanges, FirstOwner, Proper, PodIndex;
    var o := FirstOwner(ns - silent, cr, i, 0);
    FirstOwnerIs(ns - silent, cr, i, 0);
    forall j: nat | PodFQDN(cr, i, j) in ns
      ensures OwnerAt(ns, cr, i, j) <==> ns[PodFQDN(cr, i, j)].SlotCount() > 0
      ensures ns[PodFQDN(cr, i, j)].SlotCount() >= 0
    {
      ProperNode(ns[PodFQDN(cr, i, j)]);
    }
    if o.Some? {
      assert OwnerAt(ns, cr, i, o.value);
    }
  }

  /** Pods of shard i may have become known by being asked; everybody else is as before. */
  ghost predicate Asking(cr: ValkeyCluster, i: nat, ns: Nodes, now: Nodes) {
    && ns.Keys <= now.Keys
    && forall h | h in now ::
         (h in ns || (IsPod(cr, h) && Shard(cr, h) == i)) && now[h] == if h in ns then ns[h] else Fresh(h)
  }

  lemma AskingOne(cr: ValkeyCluster, i: nat, ns: Nodes, now: Nodes, j: nat)
    requires Asking(cr, i, ns, now) && j <= cr.replicas
    ensures Asking(cr, i, ns, Ensure(now, PodFQDN(cr, i, j)))
  {
    hide PodFQDN, PodIndex, Fresh;
    var h := PodFQDN(cr, i, j);
    assert Shard(cr, h) == i && Ordinal(cr, h) == j;
  }

  lemma AskingGrows(cr: ValkeyCluster, i: nat, ns: Nodes, now: Nodes)
    requires Asking(cr, i, ns, now)
    ensures Grown(ns, now)
    ensures (forall j: nat | j <= cr.replicas :: PodFQDN(cr, i, j) in ns) ==> now == ns
  {
    hide PodFQDN, PodIndex;
    assert CountRanges([]) == 0;
    hide CountRanges;
    assert !IsPod(cr, "");
    if forall j: nat | j <= cr.replicas :: PodFQDN(cr, i, j) in ns {
      forall h | h in now
        ensures h in ns
      {
        assert h !in ns ==> h == PodFQDN(cr, i, Ordinal(cr, h));
      }
    }
  }

  /** Find shard i's primary by asking its pods who they are; the hosts in `silent` do not answer. */
  method FindShardPrimary(f: FakeCluster, cr: ValkeyCluster, i: nat, idx: Nodes, silent: set<string>)
    returns (id: string, ord: int)
    requires AllProper(f.nodes)
    modifies f
    ensures AllProper(f.nodes)
    ensures match PrimaryHeard(idx, cr, i, silent)
            case Some(j) => id == PodFQDN(cr, i, j) && ord == j
            case None => id == "" && ord == -1
    ensures silent == {} ==> id == ShardPrimary(idx, cr, i) && ord == PrimaryOrd(idx, cr, i)
    ensures (forall j | 0 <= j <= cr.replicas :: PodFQDN(cr, i, j) in old(f.nodes)) ==> f.nodes == old(f.nodes)
    ensures Grown(old(f.nodes), f.nodes) && Asking(cr, i, old(f.nodes), f.nodes) && (id != "" ==> id in f.nodes)
  {
    hide PodFQDN, CountRanges, Proper, PodIndex, Grown, Asking;
    AllAnswer(idx, cr, i);
    AskingNone(cr, i, f.nodes);
    var j := 0;
    while j <= cr.replicas
      invariant 0 <= j <= cr.replicas + 1 && AllProper(f.nodes) && Asking(cr, i, old(f.nodes), f.nodes)
      invariant FirstOwner(idx - silent, cr, i, 0) == FirstOwner(idx - silent, cr, i, j)
    {
      if PodFQDN(cr, i, j) in silent {
        j := j + 1;
        continue;
      }
      AskingOne(cr, i, old(f.nodes), f.nodes, j);
      id := f.MyID(PodFQDN(cr, i, j));
      if id in idx && idx[id].OwnsSlots() {
        ord := j;
        AskingGrows(cr, i, old(f.nodes), f.nodes);
        return;
      }
      j := j + 1;
    }
    if PodFQDN(cr, i, 0) in silent {
      AskingGrows(cr, i, old(f.nodes), f.nodes);
      return "", -1;
    }
    AskingOne(cr, i, old(f.nodes), f.nodes, 0);
    id := f.MyID(PodFQDN(cr, i, 0));
    ord := 0;
    AskingGrows(cr, i, old(f.nodes), f.nodes);
  }

  lemma AskingNone(cr: ValkeyCluster, i: nat, ns: Nodes)
    ensures Asking(cr, i, ns, ns)
  {
  }

  // ---- attaching replicas ----

  /** `h` is a declared pod that does not replicate its shard's primary yet. */
  predicate Unattached(idx: Nodes, cr: ValkeyCluster, h: string) {
    && IsPod(cr, h) && Shard(cr, h) < cr.shards
    && h != ShardPrimary(idx, cr, Shard(cr, h))
    && !(h in idx && idx[h].masterID == ShardPrimary(idx, cr, Shard(cr, h)))
  }

  /** The cluster after every unattached pod was told to replicate its shard's primary. */
  function Attach(ns: Nodes, idx: Nodes, cr: ValkeyCluster): Nodes {
    map h | h in ns ::
      if Unattached(idx, cr, h) then AsReplica(ns[h], ShardPrimary(idx, cr, Shard(cr, h))) else ns[h]
  }

  /** As `Attach`, for the pods before ordinal j of shard i. */
  function AttachUpTo(ns: Nodes, idx: Nodes, cr: ValkeyCluster, i: nat, j: nat): Nodes {
    map h | h in ns ::
      if Unattached(idx, cr, h) && (Shard(cr, h) < i || (Shard(cr, h) == i && Ordinal(cr, h) < j))
      then AsReplica(ns[h], ShardPrimary(idx, cr, Shard(cr, h))) else ns[h]
  }

  lemma AttachNext(ns: Nodes, idx: Nodes, cr: ValkeyCluster, i: nat, j: nat)
    requires i < cr.shards && j <= cr.replicas && PodFQDN(cr, i, j) in ns
    ensures var h := PodFQDN(cr, i, j);
            var now := AttachUpTo(ns, idx, cr, i, j);
            && now[h] == ns[h]
            && (Unattached(idx, cr, h) <==>
                  j != PrimaryOrd(idx, cr, i) && !(h in idx && idx[h].masterID == ShardPrimary(idx, cr, i)))
            && AttachUpTo(ns, idx, cr, i, j + 1) ==
               if Unattached(idx, cr, h) then now[h := AsReplica(ns[h], ShardPrimary(idx, cr, i))] else now
  {
    var h := PodFQDN(cr, i, j);
    PrimaryIs(idx, cr, i);
    hide PodFQDN, PodIndex, FirstOwner, PrimaryOrd, CountRanges;
    assert Shard(cr, h) == i && Ordinal(cr, h) == j;
    assert h == ShardPrimary(idx, cr, i) <==> j == PrimaryOrd(idx, cr, i);
    assert forall k | k in ns && k != h && IsPod(cr, k) && Shard(cr, k) == i :: Ordinal(cr, k) != j;
  }

  lemma AttachShardDone(ns: Nodes, idx: Nodes, cr: ValkeyCluster, i: nat)
    ensures AttachUpTo(ns, idx, cr, i, cr.replicas + 1) == AttachUpTo(ns, idx, cr, i + 1, 0)
  {
    hide PodFQDN, PodIndex, ShardPrimary, CountRanges;
  }

  lemma AttachAll(ns: Nodes, idx: Nodes, cr: ValkeyCluster)
    ensures AttachUpTo(ns, idx, cr, 0, 0) == ns
    ensures AttachUpTo(ns, idx, cr, cr.shards, 0) == Attach(ns, idx, cr)
  {
    hide PodFQDN, PodIndex, ShardPrimary, CountRanges;
  }

  lemma AttachKeys(ns: Nodes, idx: Nodes, cr: ValkeyCluster, i: nat, j: nat)
    ensures AttachUpTo(ns, idx, cr, i, j).Keys == ns.Keys
  {
  }

  lemma NotEmpty(idx: Nodes, cr: ValkeyCluster, i: nat)
    ensures ShardPrimary(idx, cr, i) != ""
  {
  }

  /** Asking a pod that is not attached yet does not interfere. */
  lemma AttachEnsure(met: Nodes, idx: Nodes, cr: ValkeyCluster, i: nat, j: nat)
    requires j <= cr.replicas
    ensures AttachUpTo(Ensure(met, PodFQDN(cr, i, j)), idx, cr, i, j) ==
            Ensure(AttachUpTo(met, idx, cr, i, j), PodFQDN(cr, i, j))
  {
    hide PodFQDN, PodIndex, Unattached, ShardPrimary, Fresh;
    assert Shard(cr, PodFQDN(cr, i, j)) == i && Ordinal(cr, PodFQDN(cr, i, j)) == j;
  }

  /** The nodes met so far together with those of `now`. */
  function MetMore(met: Nodes, now: Nodes): Nodes {
    map h | h in met.Keys + now.Keys :: if h in met then met[h] else Fresh(h)
  }

  lemma AttachAsking(met: Nodes, idx: Nodes, cr: ValkeyCluster, i: nat, now: Nodes)
    requires i < cr.shards && Asking(cr, i, AttachUpTo(met, idx, cr, i, 0), now)
    ensures now == AttachUpTo(MetMore(met, now), idx, cr, i, 0)
    ensures forall ns | Meeting(cr, ns, met) :: Meeting(cr, ns, MetMore(met, now))
  {
    hide PodFQDN, PodIndex, Unattached, ShardPrimary, Fresh;
    AttachKeys(met, idx, cr, i, 0);
  }

  lemma MeetingKnown(cr: ValkeyCluster, ns: Nodes, met: Nodes)
    requires Meeting(cr, ns, met) && Known(cr, ns, cr.shards)
    ensures met == ns
  {
    hide PodFQDN, PodIndex, Fresh;
    forall h | h in met
      ensures h in ns
    {
      assert h !in ns ==> h == PodFQDN(cr, Shard(cr, h), Ordinal(cr, h));
    }
  }

  /** Make every other declared pod of a shard replicate the shard's primary, as observed in `idx`. A declared pod that
      was not known is known afterwards. */
  method AttachReplicas(f: FakeCluster, cr: ValkeyCluster, idx: Nodes) returns (ghost met: Nodes)
    requires AllProper(f.nodes)
    modifies f
    ensures AllProper(f.nodes) && Grown(old(f.nodes), f.nodes)
    ensures Meeting(cr, old(f.nodes), met) && Known(cr, met, cr.shards) && f.nodes == Attach(met, idx, cr)
    ensures Known(cr, old(f.nodes), cr.shards) ==> met == old(f.nodes)
    ensures idx == old(f.nodes) ==> AllFollow(cr, f.nodes)
  {
    hide PodFQDN, PodIndex, PrimaryOrd, ShardPrimary, CountRanges, AttachUpTo, Unattached, Proper, AllProper, Grown;
    hide Meeting, Asking, Fresh, AllFollow;
    met := f.nodes;
    MeetingNone(cr, met);
    AttachAll(met, idx, cr);
    GrownNone(f.nodes);
    ghost var ns := f.nodes;
    for i := 0 to cr.shards
      invariant AllProper(f.nodes) && Grown(ns, f.nodes) && Meeting(cr, ns, met) && Known(cr, met, i)
      invariant f.nodes == AttachUpTo(met, idx, cr, i, 0)
    {
      ghost var now := f.nodes;
      var primary, ord := FindShardPrimary(f, cr, i, idx, {});
      GrownOn(ns, now, f.nodes);
      AttachAsking(met, idx, cr, i, f.nodes);
      met := MetMore(met, f.nodes);
      AttachKeys(met, idx, cr, i, 0);
      assert primary != "" by { NotEmpty(idx, cr, i); }
      for j := 0 to cr.replicas + 1
        invariant AllProper(f.nodes) && Grown(ns, f.nodes) && Meeting(cr, ns, met) && Known(cr, met, i)
        invariant primary in met && forall b: nat | b < j :: PodFQDN(cr, i, b) in met
        invariant f.nodes == AttachUpTo(met, idx, cr, i, j)
      {
        AttachKeys(met, idx, cr, i, j);
        if j == ord {
          AttachNext(met, idx, cr, i, j);
          continue;
        }
        EnsureGrows(f.nodes, PodFQDN(cr, i, j));
        GrownOn(ns, f.nodes, Ensure(f.nodes, PodFQDN(cr, i, j)));
        AttachEnsure(met, idx, cr, i, j);
        MeetingOne(cr, ns, met, i, j);
        met := Ensure(met, PodFQDN(cr, i, j));
        AttachNext(met, idx, cr, i, j);
        AttachKeys(met, idx, cr, i, j);
        var id := f.MyID(PodFQDN(cr, i, j));
        if id in idx && idx[id].masterID == primary {
          continue;
        }
        ReplicatedProper(f.nodes, PodFQDN(cr, i, j), primary);
        ReplicateGrows(f.nodes, PodFQDN(cr, i, j), primary);
        GrownOn(ns, f.nodes, Replicated(f.nodes, PodFQDN(cr, i, j), primary));
        f.Replicate(PodFQDN(cr, i, j), primary);
      }
      AttachShardDone(met, idx, cr, i);
    }
    AttachAll(met, idx, cr);
    if Known(cr, ns, cr.shards) {
      MeetingKnown(cr, ns, met);
    }
    if idx == ns {
      AttachFollows(cr, ns, met);
    }
  }

  // ---- what attaching achieves ----

  /** `h` is a pod of one of the declared shards. */
  predicate Declared(cr: ValkeyCluster, h: string) {
    IsPod(cr, h) && Shard(cr, h) < cr.shards
  }

  /** The cluster's nodes are exactly the declared pods. */
  ghost predicate Placed(cr: ValkeyCluster, ns: Nodes) {
    AllProper(ns) && Known(cr, ns, cr.shards) && forall h | h in ns :: Declared(cr, h)
  }

  /** The primary of the pod's shard. */
  function PrimaryFor(ns: Nodes, cr: ValkeyCluster, h: string): string {
    ShardPrimary(ns, cr, Shard(cr, h))
  }

  /** The pod owns slots if it is its shard's primary, and only then. */
  predicate OwnsDuly(cr: ValkeyCluster, ns: Nodes, h: string)
    requires h in ns
  {
    ns[h].OwnsSlots() <==> h == PrimaryFor(ns, cr, h)
  }

  /** The pod is its shard's primary or replicates it. */
  predicate FollowsDuly(cr: ValkeyCluster, ns: Nodes, h: string)
    requires h in ns
  {
    h == PrimaryFor(ns, cr, h) || ns[h].masterID == PrimaryFor(ns, cr, h)
  }

  /** Every declared pod is known, and is its shard's primary or replicates it. */
  ghost predicate AllFollow(cr: ValkeyCluster, ns: Nodes) {
    Known(cr, ns, cr.shards) && forall h | h in ns && Declared(cr, h) :: FollowsDuly(cr, ns, h)
  }

  /** Each of the first k shards has a slot owner. */
  ghost predicate FirstOwn(cr: ValkeyCluster, ns: Nodes, k: nat) {
    forall i: nat | i < k :: ShardPrimary(ns, cr, i) in ns && ns[ShardPrimary(ns, cr, i)].OwnsSlots()
  }

  /** No shard has a slot owner besides its primary. */
  ghost predicate OneOwner(cr: ValkeyCluster, ns: Nodes) {
    Placed(cr, ns) && forall h | h in ns && ns[h].OwnsSlots() :: h == PrimaryFor(ns, cr, h)
  }

  /** All slots are assigned, to one pod of each shard. Replicas may be attached to anybody or nobody. */
  ghost predicate Healthy(cr: ValkeyCluster, ns: Nodes) {
    Placed(cr, ns) && Total(ns) == TOTAL_SLOTS && forall h | h in ns :: OwnsDuly(cr, ns, h)
  }

  /** Healthy, and every other pod replicates its shard's primary. */
  ghost predicate Converged(cr: ValkeyCluster, ns: Nodes) {
    Healthy(cr, ns) && forall h | h in ns :: FollowsDuly(cr, ns, h)
  }

  lemma {:induction false} SameFirstOwner(a: Nodes, b: Nodes, cr: ValkeyCluster, i: nat, j: nat)
    requires a.Keys == b.Keys && forall h | h in a :: a[h].OwnsSlots() <==> b[h].OwnsSlots()
    ensures FirstOwner(a, cr, i, j) == FirstOwner(b, cr, i, j)
    decreases cr.replicas + 1 - j
  {
    hide PodFQDN, CountRanges;
    if j <= cr.replicas {
      SameFirstOwner(a, b, cr, i, j + 1);
    }
  }

  /** The pod of shard i with ordinal j owns slots. */
  ghost predicate OwnerAt(ns: Nodes, cr: ValkeyCluster, i: nat, j: nat) {
    PodFQDN(cr, i, j) in ns && ns[PodFQDN(cr, i, j)].OwnsSlots()
  }

  lemma SamePrimary(a: Nodes, b: Nodes, cr: ValkeyCluster, i: nat)
    requires forall j: nat | j <= cr.replicas :: OwnerAt(a, cr, i, j) <==> OwnerAt(b, cr, i, j)
    ensures ShardPrimary(a, cr, i) == ShardPrimary(b, cr, i)
  {
    FirstOwnerFrom(a, b, cr, i, 0);
  }

  lemma {:induction false} FirstOwnerFrom(a: Nodes, b: Nodes, cr: ValkeyCluster, i: nat, j: nat)
    requires forall j: nat | j <= cr.replicas :: OwnerAt(a, cr, i, j) <==> OwnerAt(b, cr, i, j)
    ensures FirstOwner(a, cr, i, j) == FirstOwner(b, cr, i, j)
    decreases cr.replicas + 1 - j
  {
    hide PodFQDN, CountRanges;
    if j <= cr.replicas {
      assert OwnerAt(a, cr, i, j) <==> OwnerAt(b, cr, i, j);
      FirstOwnerFrom(a, b, cr, i, j + 1);
    }
  }

  lemma NoOwner(ns: Nodes, cr: ValkeyCluster, i: nat)
    requires forall j: nat | 0 < j <= cr.replicas :: !OwnerAt(ns, cr, i, j)
    ensures ShardPrimary(ns, cr, i) == PodFQDN(cr, i, 0)
  {
    FirstOwnerIs(ns, cr, i, 0);
    hide PodFQDN, CountRanges, FirstOwner;
    var o := FirstOwner(ns, cr, i, 0);
    if o.Some? {
      assert OwnerAt(ns, cr, i, o.value);
    }
  }

  lemma SamePrimaries(a: Nodes, b: Nodes, cr: ValkeyCluster)
    requires a.Keys == b.Keys && forall h | h in a :: a[h].OwnsSlots() <==> b[h].OwnsSlots()
    ensures forall i: nat :: ShardPrimary(a, cr, i) == ShardPrimary(b, cr, i)
  {
    forall i: nat
      ensures ShardPrimary(a, cr, i) == ShardPrimary(b, cr, i)
    {
      SameFirstOwner(a, b, cr, i, 0);
    }
  }

  lemma {:induction false} SameTotal(a: Nodes, b: Nodes)
    requires a.Keys == b.Keys && forall h | h in a :: a[h].SlotCount() == b[h].SlotCount()
    ensures Total(a) == Total(b)
    decreases |a|
  {
    hide CountRanges;
    if h :| h in a {
      TotalSplit(a, h);
      TotalSplit(b, h);
      SameTotal(a - {h}, b - {h});
    } else {
      assert a == map[] && b == map[];
    }
  }

  lemma ReplicaOwnsNothing(n: NodeInfo, primary: string)
    requires primary != ""
    ensures AsReplica(n, primary).SlotCount() == 0 && !AsReplica(n, primary).OwnsSlots()
    ensures Proper(AsReplica(n, primary))
  {
    ProperNode(AsReplica(n, primary));
  }

  /** One pod after attaching: the same slots, and the right master. */
  lemma AttachOne(cr: ValkeyCluster, ns: Nodes, h: string)
    requires OneOwner(cr, ns) && h in ns
    ensures var after := Attach(ns, ns, cr)[h];
            && after.SlotCount() == ns[h].SlotCount() && (after.OwnsSlots() <==> ns[h].OwnsSlots())
            && after.id == h && after.host == h && Proper(after)
            && (h == PrimaryFor(ns, cr, h) || after.masterID == PrimaryFor(ns, cr, h))
            && (after.slots == ns[h].slots || ns[h].SlotCount() == 0)
  {
    assert Declared(cr, h);
    ProperNode(ns[h]);
    NotEmpty(ns, cr, Shard(cr, h));
    ReplicaOwnsNothing(ns[h], PrimaryFor(ns, cr, h));
    hide CountRanges, PodFQDN, PodIndex, PrimaryOrd, Proper, Total, IsPod, ShardPrimary;
  }

  lemma AttachSame(cr: ValkeyCluster, ns: Nodes)
    requires OneOwner(cr, ns)
    ensures var after := Attach(ns, ns, cr);
            && after.Keys == ns.Keys && AllProper(after) && Total(after) == Total(ns)
            && forall i: nat :: ShardPrimary(after, cr, i) == ShardPrimary(ns, cr, i)
  {
    var after := Attach(ns, ns, cr);
    assert after.Keys == ns.Keys;
    hide *;
    forall h | h in ns
      ensures after[h].SlotCount() == ns[h].SlotCount() && (after[h].OwnsSlots() <==> ns[h].OwnsSlots())
      ensures after[h].id == h && after[h].host == h && Proper(after[h])
    {
      AttachOne(cr, ns, h);
    }
    AllProperIf(after);
    SameTotal(ns, after);
    SamePrimaries(ns, after, cr);
  }

  /** Attaching makes nobody an owner, and leaves the owners it does not attach. */
  lemma AttachOwns(cr: ValkeyCluster, ns: Nodes, met: Nodes, h: string)
    requires Meeting(cr, ns, met)
    ensures h in met && Attach(met, ns, cr)[h].OwnsSlots() ==> h in ns && ns[h].OwnsSlots()
    ensures h in ns && ns[h].OwnsSlots() && !Unattached(ns, cr, h) ==> h in met && Attach(met, ns, cr)[h].OwnsSlots()
  {
    assert CountRanges([]) == 0;
    hide CountRanges, Unattached, ShardPrimary, Declared, Shard, NodeInfo.IsPrimary;
  }

  lemma PrimaryIsAttached(cr: ValkeyCluster, ns: Nodes, i: nat)
    ensures !Unattached(ns, cr, ShardPrimary(ns, cr, i))
  {
    PrimaryIs(ns, cr, i);
    hide ShardPrimary, IsPod, Shard;
  }

  lemma AttachedThere(cr: ValkeyCluster, ns: Nodes, met: Nodes)
    ensures Attach(met, ns, cr).Keys == met.Keys
  {
    hide Unattached, ShardPrimary, Shard;
  }

  lemma AttachKeepsPrimary(cr: ValkeyCluster, ns: Nodes, met: Nodes, i: nat)
    requires Meeting(cr, ns, met)
    ensures ShardPrimary(Attach(met, ns, cr), cr, i) == ShardPrimary(ns, cr, i)
  {
    var after := Attach(met, ns, cr);
    FirstOwnerIs(ns, cr, i, 0);
    FirstOwnerIs(after, cr, i, 0);
    hide Attach, Meeting, FirstOwner, PodFQDN, NodeInfo.OwnsSlots;
    PrimaryIsAttached(cr, ns, i);
    assert after.Keys == met.Keys by { AttachedThere(cr, ns, met); }
    forall j: nat | j <= cr.replicas
      ensures OwnerAt(after, cr, i, j) ==> OwnerAt(ns, cr, i, j)
      ensures j == PrimaryOrd(ns, cr, i) && OwnerAt(ns, cr, i, j) ==> OwnerAt(after, cr, i, j)
    {
      AttachOwns(cr, ns, met, PodFQDN(cr, i, j));
    }
    var o, o' := FirstOwner(ns, cr, i, 0), FirstOwner(after, cr, i, 0);
    if o.Some? {
      assert OwnerAt(ns, cr, i, o.value) && PrimaryOrd(ns, cr, i) == o.value;
    }
    if o'.Some? {
      assert OwnerAt(after, cr, i, o'.value);
    }
  }

  lemma AttachUp(cr: ValkeyCluster, ns: Nodes, met: Nodes, idx: Nodes)
    requires Meeting(cr, ns, met) && AllUp(ns)
    ensures AllUp(Attach(met, idx, cr))
  {
    hide PodFQDN, PodIndex, ShardPrimary, IsPod, Unattached;
  }

  /** From any cluster, whoever owns what and however its replicas are wired: after attaching by what was observed,
      every declared pod is its shard's primary or replicates it. */
  lemma AttachFollows(cr: ValkeyCluster, ns: Nodes, met: Nodes)
    requires Meeting(cr, ns, met) && Known(cr, met, cr.shards)
    ensures AllFollow(cr, Attach(met, ns, cr))
  {
    hide CountRanges, PodFQDN, PodIndex, ShardPrimary, IsPod;
    var after := Attach(met, ns, cr);
    SameKnown(cr, met, after);
    forall h | h in after && Declared(cr, h)
      ensures FollowsDuly(cr, after, h)
    {
      AttachKeepsPrimary(cr, ns, met, Shard(cr, h));
    }
  }

  lemma AllProperIf(ns: Nodes)
    requires forall h | h in ns :: ns[h].id == h && ns[h].host == h && Proper(ns[h])
    ensures AllProper(ns)
  {
  }

  lemma SameKnown(cr: ValkeyCluster, a: Nodes, b: Nodes)
    requires a.Keys == b.Keys
    ensures Known(cr, a, cr.shards) <==> Known(cr, b, cr.shards)
  {
    hide PodFQDN;
  }

  lemma AttachDuly(cr: ValkeyCluster, ns: Nodes, h: string)
    requires OneOwner(cr, ns) && h in ns
    ensures var after := Attach(ns, ns, cr);
            h in after && FollowsDuly(cr, after, h) && (OwnsDuly(cr, after, h) <==> OwnsDuly(cr, ns, h))
  {
    AttachSame(cr, ns);
    AttachOne(cr, ns, h);
    hide Attach, OneOwner, AllProper, ShardPrimary, Shard, CountRanges;
  }

  lemma HealthyHasOneOwner(cr: ValkeyCluster, ns: Nodes)
    requires Healthy(cr, ns)
    ensures OneOwner(cr, ns) && forall h | h in ns :: OwnsDuly(cr, ns, h)
  {
    hide Placed, Total, PrimaryFor, NodeInfo.OwnsSlots;
    assert forall h | h in ns :: OwnsDuly(cr, ns, h);
  }

  /** From any healthy cluster, however its replicas are wired, attaching converges and no slot changes hands. */
  lemma AttachConverges(cr: ValkeyCluster, ns: Nodes)
    requires Healthy(cr, ns)
    ensures Converged(cr, Attach(ns, ns, cr))
    ensures forall h | h in ns :: Attach(ns, ns, cr)[h].slots == ns[h].slots || ns[h].SlotCount() == 0
  {
    hide *;
    var after := Attach(ns, ns, cr);
    HealthyHasOneOwner(cr, ns);
    AttachSame(cr, ns);
    forall h | h in ns
      ensures OwnsDuly(cr, after, h) && FollowsDuly(cr, after, h)
      ensures after[h].slots == ns[h].slots || ns[h].SlotCount() == 0
    {
      AttachDuly(cr, ns, h);
      AttachOne(cr, ns, h);
    }
    ConvergedIf(cr, ns, after);
  }

  lemma ConvergedIf(cr: ValkeyCluster, ns: Nodes, after: Nodes)
    requires Healthy(cr, ns) && after.Keys == ns.Keys && AllProper(after) && Total(after) == Total(ns)
    requires forall h | h in ns :: OwnsDuly(cr, after, h) && FollowsDuly(cr, after, h)
    ensures Converged(cr, after)
  {
    hide OwnsDuly, FollowsDuly, Declared, Known, Total, AllProper;
    SameKnown(cr, ns, after);
    assert Healthy(cr, after);
  }

  /** On a converged cluster there is nothing to attach. */
  lemma AttachIsIdle(cr: ValkeyCluster, ns: Nodes)
    requires Converged(cr, ns)
    ensures Attach(ns, ns, cr) == ns
  {
    hide CountRanges, PodFQDN, PodIndex, PrimaryOrd, Proper, Total, IsPod, ShardPrimary;
    assert forall h | h in ns :: FollowsDuly(cr, ns, h);
  }

  /** Attaching turns a slot owner into a replica exactly when another slot owner comes before it in its own
      declared shard. */
  lemma DemotedIff(cr: ValkeyCluster, ns: Nodes, h: string)
    requires AllProper(ns) && h in ns && ns[h].OwnsSlots()
    ensures Attach(ns, ns, cr)[h] != ns[h] <==>
            && IsPod(cr, h) && Shard(cr, h) < cr.shards
            && exists j | 0 <= j < Ordinal(cr, h) ::
                 PodFQDN(cr, Shard(cr, h), j) in ns && ns[PodFQDN(cr, Shard(cr, h), j)].OwnsSlots()
  {
    ProperNode(ns[h]);
    NotEmpty(ns, cr, Shard(cr, h));
    ReplicaOwnsNothing(ns[h], ShardPrimary(ns, cr, Shard(cr, h)));
    PrimaryIs(ns, cr, Shard(cr, h));
    FirstOwnerIs(ns, cr, Shard(cr, h), 0);
    hide CountRanges, PodFQDN, PodIndex, FirstOwner, Proper;
  }

  // ---- forgetting nodes ----

  /** The StatefulSets that exist, by shard index. */
  class Workloads {
    var shards: set<nat>

    constructor (initial: set<nat>)
      ensures shards == initial
    {
      shards := initial;
    }

    /** Delete a shard's StatefulSet and volumes. */
    method DeleteShard(i: nat)
      modifies this
      ensures shards == old(shards) - {i}
    {
      shards := shards - {i};
    }
  }

  /** `h` belongs to a pod of an existing StatefulSet. */
  predicate HasPod(cr: ValkeyCluster, shards: set<nat>, h: string) {
    IsPod(cr, h) && Shard(cr, h) in shards
  }

  /** Tell every declared pod to forget a node; with no shard declared there is nobody to tell. */
  method ForgetEverywhere(f: FakeCluster, cr: ValkeyCluster, id: string)
    modifies f
    ensures f.nodes == if cr.shards > 0 then old(f.nodes) - {id} else old(f.nodes)
  {
    for i := 0 to cr.shards
      invariant f.nodes == if i > 0 then old(f.nodes) - {id} else old(f.nodes)
    {
      for j := 0 to cr.replicas + 1
        invariant f.nodes == if i > 0 || j > 0 then old(f.nodes) - {id} else old(f.nodes)
      {
        f.Forget(id);
      }
    }
  }

  /** The listed nodes whose pod is gone. */
  function Stale(cr: ValkeyCluster, shards: set<nat>, nodes: seq<NodeInfo>): set<string> {
    if nodes == [] then {}
    else
      var last := nodes[|nodes| - 1];
      Stale(cr, shards, nodes[..|nodes| - 1]) +
        if last.host != "" && !HasPod(cr, shards, last.host) then {last.id} else {}
  }

  lemma {:induction false} StaleIs(cr: ValkeyCluster, shards: set<nat>, nodes: seq<NodeInfo>, h: string)
    ensures h in Stale(cr, shards, nodes) <==>
            exists i :: 0 <= i < |nodes| && nodes[i].id == h
                        && nodes[i].host != "" && !HasPod(cr, shards, nodes[i].host)
  {
    hide HasPod;
    if nodes != [] {
      var rest := nodes[..|nodes| - 1];
      assert forall i | 0 <= i < |rest| :: rest[i] == nodes[i];
      StaleIs(cr, shards, rest, h);
    }
  }

  /** Forget every listed node whose StatefulSet no longer exists. */
  method ForgetStaleNodes(f: FakeCluster, w: Workloads, cr: ValkeyCluster, nodes: seq<NodeInfo>)
    modifies f
    ensures f.nodes == if cr.shards > 0 then old(f.nodes) - Stale(cr, w.shards, nodes) else old(f.nodes)
  {
    hide HasPod;
    for i := 0 to |nodes|
      invariant f.nodes == if cr.shards > 0 then old(f.nodes) - Stale(cr, w.shards, nodes[..i]) else old(f.nodes)
    {
      assert nodes[..i + 1][..i] == nodes[..i];
      if nodes[i].host != "" && !HasPod(cr, w.shards, nodes[i].host) {
        ForgetEverywhere(f, cr, nodes[i].id);
      }
    }
    assert nodes[..|nodes|] == nodes;
  }

  // ---- keeping membership aligned ----

  method IndexByID(nodes: seq<NodeInfo>, ghost ns: Nodes) returns (idx: Nodes)
    requires Lists(nodes, ns)
    ensures idx == ns
  {
    idx := map[];
    for i := 0 to |nodes|
      invariant idx.Keys == Ids(nodes[..i])
      invariant forall h | h in idx :: h in ns && idx[h] == ns[h]
    {
      IdsAppend(nodes[..i], nodes[i]);
      assert nodes[..i + 1] == nodes[..i] + [nodes[i]];
      idx := idx[nodes[i].id := nodes[i]];
    }
    assert nodes[..|nodes|] == nodes;
  }

  /** Declared pods may have joined as empty masters; everybody else is as before. */
  ghost predicate Meeting(cr: ValkeyCluster, ns: Nodes, now: Nodes) {
    && ns.Keys <= now.Keys
    && forall h | h in now :: (h in ns || Declared(cr, h)) && now[h] == if h in ns then ns[h] else Fresh(h)
  }

  lemma MeetingOne(cr: ValkeyCluster, ns: Nodes, now: Nodes, i: nat, j: nat)
    requires Meeting(cr, ns, now) && i < cr.shards && j <= cr.replicas
    ensures Meeting(cr, ns, Ensure(now, PodFQDN(cr, i, j)))
  {
    hide PodFQDN, PodIndex, Fresh;
    var h := PodFQDN(cr, i, j);
    assert Shard(cr, h) == i && Ordinal(cr, h) == j;
  }

  /** Introduce every declared pod that is not listed to the seed. */
  method MeetMissing(f: FakeCluster, cr: ValkeyCluster, nodes: seq<NodeInfo>)
    requires AllProper(f.nodes) && Lists(nodes, f.nodes)
    modifies f
    ensures AllProper(f.nodes) && Meeting(cr, old(f.nodes), f.nodes) && Known(cr, f.nodes, cr.shards)
    ensures Total(f.nodes) <= Total(old(f.nodes))
  {
    hide PodFQDN, PodIndex, CountRanges, Proper, Lists, Meeting, Declared, Total;
    ghost var ns := f.nodes;
    var byHost := IndexHosts(nodes, ns);
    var seed := PodFQDN(cr, 0, 0);
    MeetingNone(cr, ns);
    for i := 0 to cr.shards
      invariant AllProper(f.nodes) && Meeting(cr, ns, f.nodes) && ns.Keys <= f.nodes.Keys && Known(cr, f.nodes, i)
    {
      for j := 0 to cr.replicas + 1
        invariant AllProper(f.nodes) && Meeting(cr, ns, f.nodes) && ns.Keys <= f.nodes.Keys && Known(cr, f.nodes, i)
        invariant forall b: nat | b < j :: PodFQDN(cr, i, b) in f.nodes
      {
        var h := PodFQDN(cr, i, j);
        if h !in byHost {
          MeetingOne(cr, ns, f.nodes, 0, 0);
          MeetingOne(cr, ns, Ensure(f.nodes, seed), i, j);
          f.Meet(seed, h);
        }
      }
    }
    MeetingTotal(cr, ns, f.nodes);
  }

  lemma MeetingTotal(cr: ValkeyCluster, ns: Nodes, now: Nodes)
    requires Meeting(cr, ns, now) && AllProper(ns)
    ensures Total(now) <= Total(ns)
  {
    hide Total, AllProper, Declared;
    assert CountRanges([]) == 0;
    TotalNoMore(now, ns);
  }

  lemma MeetingNone(cr: ValkeyCluster, ns: Nodes)
    ensures Meeting(cr, ns, ns)
  {
  }

  /** What keeping membership aligned comes to: the declared pods and those of other existing shards are left,
      and every declared pod follows its shard's primary. */
  ghost predicate Rewired(cr: ValkeyCluster, shards: set<nat>, ns: Nodes, after: Nodes) {
    && (forall h :: h in after <==> Declared(cr, h) || (h in ns && HasPod(cr, shards, h)))
    && forall h | h in after ::
         var n := if h in ns then ns[h] else Fresh(h);
         after[h] == if Unattached(ns, cr, h) then AsReplica(n, PrimaryFor(ns, cr, h)) else n
  }

  lemma RewiredIf(cr: ValkeyCluster, shards: set<nat>, ns: Nodes, met: Nodes, nodes: seq<NodeInfo>)
    requires AllProper(ns) && "" !in ns && Lists(nodes, ns) && (forall i: nat | i < cr.shards :: i in shards)
    requires Meeting(cr, ns, met) && Known(cr, met, cr.shards)
    ensures Rewired(cr, shards, ns, Attach(met, ns, cr) - Stale(cr, shards, nodes))
  {
    hide PodFQDN, PodIndex, CountRanges, Proper, Fresh, ShardPrimary, Stale, Unattached;
    var gone := Stale(cr, shards, nodes);
    var after := Attach(met, ns, cr) - gone;
    forall h
      ensures h in gone <==> h in ns && !HasPod(cr, shards, h)
    {
      StaleIs(cr, shards, nodes, h);
      assert h in ns ==> h in Ids(nodes);
    }
    forall h | Declared(cr, h)
      ensures h in met
    {
      assert h == PodFQDN(cr, Shard(cr, h), Ordinal(cr, h));
    }
  }

  /** Among exactly the declared pods this is attaching and nothing else. */
  lemma RewiredPlaced(cr: ValkeyCluster, shards: set<nat>, ns: Nodes, after: Nodes)
    requires Placed(cr, ns) && Rewired(cr, shards, ns, after)
    ensures after == Attach(ns, ns, cr)
  {
    hide PodFQDN, PodIndex, Fresh, ShardPrimary, AllProper, Unattached, HasPod;
    forall h
      ensures h in after <==> h in ns
    {
      if Declared(cr, h) {
        assert h == PodFQDN(cr, Shard(cr, h), Ordinal(cr, h));
      }
    }
  }

  /** Meet missing pods, attach replicas, forget stale nodes. */
  method ReconcileMembership(f: FakeCluster, w: Workloads, cr: ValkeyCluster, st: ClusterState)
    requires AllProper(f.nodes) && Observes(st, f.nodes)
    modifies f
    ensures AllProper(f.nodes) && Total(f.nodes) <= Total(old(f.nodes))
    ensures cr.shards > 0 && "" !in old(f.nodes) && (forall i: nat | i < cr.shards :: i in w.shards) ==>
              Rewired(cr, w.shards, old(f.nodes), f.nodes)
  {
    hide PodFQDN, PodIndex, CountRanges, Proper, Total, Attach, Stale, Lists, Meeting, Known, Rewired, Grown;
    ghost var ns := f.nodes;
    MeetMissing(f, cr, st.nodes);
    ghost var met := f.nodes;
    var idx := IndexByID(st.nodes, ns);
    ghost var _ := AttachReplicas(f, cr, idx);
    ghost var attached := f.nodes;
    GrownTotal(met, attached);
    ForgetStaleNodes(f, w, cr, st.nodes);
    TotalNoMore(f.nodes, attached);
    if cr.shards > 0 && "" !in ns && forall i: nat | i < cr.shards :: i in w.shards {
      RewiredIf(cr, w.shards, ns, met, st.nodes);
    }
  }

  method IndexHosts(nodes: seq<NodeInfo>, ghost ns: Nodes) returns (hosts: set<string>)
    requires Lists(nodes, ns) && AllProper(ns)
    ensures hosts == ns.Keys
  {
    hide Proper;
    hosts := {};
    for i := 0 to |nodes|
      invariant hosts == Ids(nodes[..i])
    {
      IdsAppend(nodes[..i], nodes[i]);
      assert nodes[..i + 1] == nodes[..i] + [nodes[i]];
      hosts := hosts + {nodes[i].host};
    }
    assert nodes[..|nodes|] == nodes;
  }
}
