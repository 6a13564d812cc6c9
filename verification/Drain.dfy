/** A whole scale-in as the data sees it: batches of slots drained from departing masters, each batch stopping
    anywhere, and departing masters deleted in between. */
module Drain {
  import opened Wrappers
  import opened Cluster
  import opened SlotState
  import opened Masters
  import opened Mover
  import opened Membership
  import opened Teardown

  // ---- what every state of a run holds ----

  /** What a run is judged by: the seed whose view it goes by, the masters that depart, and the keys of each slot. */
  datatype Job = Job(seed: NodeId, departing: set<NodeId>, data: map<int, Keyspace>)

  ghost predicate HeldIn(col: Column, k: string) {
    exists n :: n in col && k in col[n].keys
  }

  /** The masters hold the keys of `data`, with their values, and no others. */
  ghost predicate Complete(col: Column, data: Keyspace) {
    && (forall n, k | n in col && k in col[n].keys :: k in data && col[n].keys[k] == data[k])
    && (forall k | k in data :: HeldIn(col, k))
  }

  /** All keys of the slot are held, and a departing master holds keys of it only while the seed names that master as
      its owner. */
  ghost predicate Flowing(col: Column, data: Keyspace, job: Job) {
    && job.seed in col && Complete(col, data)
    && forall n | n in col && n in job.departing && n != col[job.seed].owner :: col[n].keys == map[]
  }

  /** A slot on its way from `src` to the survivor `t`; `src` may be deleted by now. Its keys are where clients look
      for them. */
  ghost predicate OnCourse(col: Column, seed: NodeId, src: NodeId, t: NodeId, data: Keyspace) {
    && seed in col && t in col && src != t
    && if src in col then InFlight(col, src, t) && Visible(col, src, t) == data
       else
         && (forall n | n in col && n != t :: col[n].keys == map[])
         && (forall n | n in col :: col[n].owner == src || col[n].owner == t)
         && col[seed].owner == t
         && col[t].keys == data
  }

  /** The slot is at rest on `o` with its keys. */
  ghost predicate RestsOn(col: Column, o: NodeId, data: Keyspace) {
    Settled(col, o) && col[o].keys == data
  }

  /** The slot is at rest, or on its way from a departing master to a survivor: its keys are where clients look. */
  ghost predicate OnWay(col: Column, data: Keyspace, job: Job) {
    && job.seed in col
    && (|| (exists o :: RestsOn(col, o, data))
        || exists d, t :: d in job.departing && t !in job.departing && OnCourse(col, job.seed, d, t, data))
  }

  ghost predicate AllFlowing(c: State, job: Job) {
    c.Keys == job.data.Keys && forall s | s in c :: Flowing(c[s], job.data[s], job)
  }

  ghost predicate AllOnWay(c: State, job: Job) {
    c.Keys == job.data.Keys && forall s | s in c :: OnWay(c[s], job.data[s], job)
  }

  /** The seed lists the slot under a departing master. */
  predicate Due(c: State, job: Job, s: int) {
    s in c && job.seed in c[s] && c[s][job.seed].owner in job.departing
  }

  /** Every slot that is due is on its way to `t` or has not left: what a pass with survivor `t` needs. */
  ghost predicate Aimed(c: State, t: NodeId, job: Job) {
    && c.Keys == job.data.Keys
    && forall s | Due(c, job, s) :: OnCourse(c[s], job.seed, c[s][job.seed].owner, t, job.data[s])
  }

  /** Every slot that is due is at rest where the seed lists it. */
  ghost predicate Calm(c: State, job: Job) {
    c.Keys == job.data.Keys && forall s | Due(c, job, s) :: RestsOn(c[s], c[s][job.seed].owner, job.data[s])
  }

  /** Every slot has a view on master `n`. */
  ghost predicate There(c: State, n: NodeId) {
    forall s | s in c :: n in c[s]
  }

  lemma CalmIsAimed(c: State, t: NodeId, job: Job)
    requires Calm(c, job) && There(c, t) && t !in job.departing
    ensures Aimed(c, t, job)
  {
    hide Settled, InFlight;
    forall s | Due(c, job, s)
      ensures OnCourse(c[s], job.seed, c[s][job.seed].owner, t, job.data[s])
    {
      var d := c[s][job.seed].owner;
      assert RestsOn(c[s], d, job.data[s]);
      SettledThere(c[s], d);
      SettledIsInFlight(c[s], d, t);
    }
  }

  lemma SettledThere(col: Column, o: NodeId)
    requires Settled(col, o)
    ensures o in col && forall n | n in col :: col[n].owner == o
  {
  }

  // ---- a batch ----

  lemma BatchComplete(col: Column, col': Column, d: NodeId, t: NodeId, data: Keyspace)
    requires Complete(col, data) && Keeps(col, col', d, t)
    ensures Complete(col', data)
  {
    hide Backed;
    forall k | k in data
      ensures HeldIn(col', k)
    {
      var n :| n in col && k in col[n].keys;
      if d in col && t in col && (n == d || n == t) {
        assert k in Visible(col', d, t);
        assert k in col'[d].keys || k in col'[t].keys;
      } else {
        assert k in col'[n].keys;
      }
    }
  }

  lemma BatchFlows(col: Column, col': Column, data: Keyspace, job: Job, d: NodeId, t: NodeId)
    requires Flowing(col, data, job) && Advances(col, col', d, t)
    requires col[job.seed].owner == d && d in job.departing && t !in job.departing
    ensures Flowing(col', data, job)
  {
    hide InFlight, Backed, SameVisible, Complete;
    BatchComplete(col, col', d, t, data);
  }

  lemma BatchOnCourse(
    col: Column, col': Column, seed: NodeId, src: NodeId, t: NodeId, data: Keyspace, d: NodeId)
    requires OnCourse(col, seed, src, t, data) && d != t && col[seed].owner == d && Advances(col, col', d, t)
    ensures OnCourse(col', seed, src, t, data)
  {
    if src in col {
      assert d == src;
    }
  }

  /** A batch of slots the seed names `d` as the owner of, wherever it stops, loses no key; and if the slots that are
      due were aimed at this survivor, all keys stay where clients look. */
  lemma BatchKeeps(c: State, c': State, list: seq<int>, d: NodeId, t: NodeId, job: Job)
    requires AllWithin(c, c', list, d, t) && d in job.departing && t !in job.departing
    requires forall s | s in list :: SeedSees(c, job.seed, s, d)
    ensures AllFlowing(c, job) ==> AllFlowing(c', job)
    ensures Aimed(c, t, job) ==> Aimed(c', t, job) && (AllOnWay(c, job) ==> AllOnWay(c', job))
  {
    hide Flowing, OnCourse, Advances, OnWay;
    if AllFlowing(c, job) {
      forall s | s in c'
        ensures Flowing(c'[s], job.data[s], job)
      {
        if s in list {
          assert SeedSees(c, job.seed, s, d);
          BatchFlows(c[s], c'[s], job.data[s], job, d, t);
        }
      }
    }
    if Aimed(c, t, job) {
      forall s | s in c' && s in list
        ensures OnCourse(c'[s], job.seed, d, t, job.data[s]) && OnWay(c'[s], job.data[s], job)
        ensures Due(c', job, s) ==> c'[s][job.seed].owner == d
      {
        assert SeedSees(c, job.seed, s, d) && Due(c, job, s);
        BatchOnCourse(c[s], c'[s], job.seed, d, t, job.data[s], d);
        CourseOwners(c'[s], d, t, job.data[s], job);
      }
      forall s | Due(c', job, s)
        ensures OnCourse(c'[s], job.seed, c'[s][job.seed].owner, t, job.data[s])
      {
        assert s !in list ==> c'[s] == c[s] && Due(c, job, s);
      }
    }
  }

  lemma CourseOwners(col: Column, d: NodeId, t: NodeId, data: Keyspace, job: Job)
    requires OnCourse(col, job.seed, d, t, data) && d in job.departing && t !in job.departing
    ensures OnWay(col, data, job) && job.seed in col && col[job.seed].owner in {d, t}
  {
  }

  // ---- a deletion ----

  lemma DeleteFlows(col: Column, data: Keyspace, job: Job, d: NodeId)
    requires Flowing(col, data, job) && d in job.departing && d != job.seed && col[job.seed].owner != d
    ensures d in col ==> col[d].keys == map[]
    ensures Flowing(col - {d}, data, job)
  {
    var col' := col - {d};
    assert forall n | n in col' :: n in col && col'[n] == col[n];
    forall k | k in data
      ensures HeldIn(col', k)
    {
      var n :| n in col && k in col[n].keys;
      assert n in col';
    }
  }

  lemma DeleteOnCourse(col: Column, seed: NodeId, src: NodeId, t: NodeId, data: Keyspace, d: NodeId)
    requires OnCourse(col, seed, src, t, data) && d != t && d != seed && col[seed].owner != d
    ensures OnCourse(col - {d}, seed, src, t, data)
  {
    var col' := col - {d};
    assert forall n | n in col' :: n in col && col'[n] == col[n];
    if src in col && src == d {
      assert col[seed].owner == t && col[src].keys == map[];
      assert Visible(col, src, t) == col[t].keys;
    } else if src in col {
      assert Visible(col', src, t) == Visible(col, src, t);
    }
  }

  lemma DeleteRests(col: Column, o: NodeId, data: Keyspace, d: NodeId)
    requires RestsOn(col, o, data) && d != o
    ensures RestsOn(col - {d}, o, data)
  {
  }

  lemma DeleteOnWay(col: Column, data: Keyspace, job: Job, d: NodeId)
    requires OnWay(col, data, job) && d in job.departing && d != job.seed && col[job.seed].owner != d
    ensures OnWay(col - {d}, data, job)
  {
    hide OnCourse;
    if o :| RestsOn(col, o, data) {
      DeleteRests(col, o, data, d);
    } else {
      var x, t :| x in job.departing && t !in job.departing && OnCourse(col, job.seed, x, t, data);
      DeleteOnCourse(col, job.seed, x, t, data, d);
    }
  }

  /** Deleting a departing master the seed names as no slot's owner loses no key and hides none. */
  lemma DeleteKeeps(c: State, d: NodeId, t: NodeId, job: Job)
    requires d in job.departing && job.seed !in job.departing && t !in job.departing
    requires forall s :: !SeedSees(c, job.seed, s, d)
    ensures AllFlowing(c, job) ==> AllFlowing(Without(c, d), job)
    ensures AllOnWay(c, job) ==> AllOnWay(Without(c, d), job)
    ensures Aimed(c, t, job) ==> Aimed(Without(c, d), t, job)
    ensures Calm(c, job) ==> Calm(Without(c, d), job)
  {
    hide Flowing, OnCourse, OnWay, RestsOn;
    forall s | s in c && s in job.data
      ensures Flowing(c[s], job.data[s], job) ==> Flowing(c[s] - {d}, job.data[s], job)
      ensures OnWay(c[s], job.data[s], job) ==> OnWay(c[s] - {d}, job.data[s], job)
    {
      assert !SeedSees(c, job.seed, s, d);
      SeedThere(c[s], job.data[s], job);
      if Flowing(c[s], job.data[s], job) {
        DeleteFlows(c[s], job.data[s], job, d);
      }
      if OnWay(c[s], job.data[s], job) {
        DeleteOnWay(c[s], job.data[s], job, d);
      }
    }
    forall s | Due(Without(c, d), job, s) && s in job.data
      ensures Due(c, job, s) && Without(c, d)[s] == c[s] - {d} && Without(c, d)[s][job.seed] == c[s][job.seed]
      ensures var o := c[s][job.seed].owner;
              && (OnCourse(c[s], job.seed, o, t, job.data[s]) ==> OnCourse(c[s] - {d}, job.seed, o, t, job.data[s]))
              && (RestsOn(c[s], o, job.data[s]) ==> RestsOn(c[s] - {d}, o, job.data[s]))
    {
      var o := c[s][job.seed].owner;
      assert !SeedSees(c, job.seed, s, d);
      if OnCourse(c[s], job.seed, o, t, job.data[s]) {
        DeleteOnCourse(c[s], job.seed, o, t, job.data[s], d);
      }
      if RestsOn(c[s], o, job.data[s]) {
        DeleteRests(c[s], o, job.data[s], d);
      }
    }
  }

  lemma SeedThere(col: Column, data: Keyspace, job: Job)
    ensures Flowing(col, data, job) || OnWay(col, data, job) ==> job.seed in col
  {
  }

  // ---- the seed's listing ----

  /** The listing has every master once, as a primary, with exactly the slots the seed names it as the owner of, in
      ascending order. */
  ghost predicate ListsSlots(nodes: seq<NodeInfo>, masters: seq<NodeId>, c: State, seed: NodeId) {
    && |nodes| == |masters|
    && forall i | 0 <= i < |nodes| ::
         && nodes[i].id == masters[i] && nodes[i].IsPrimary() && Ascending(nodes[i].slots)
         && forall s :: Covers(nodes[i].slots, s) <==> SeedSees(c, seed, s, masters[i])
  }

  /** Ask the seed for its view of the masters. */
  method ListMasters(sv: Servers, seed: NodeId, masters: seq<NodeId>) returns (listing: Option<seq<NodeInfo>>)
    modifies sv`faults
    ensures sv.faults >= old(sv.faults) && (listing.None? ==> sv.faults > old(sv.faults))
    ensures listing.Some? ==> ListsSlots(listing.value, masters, sv.slots, seed)
  {
    hide Ascending, Covers, SeedSees;
    var nodes: seq<NodeInfo> := [];
    for i := 0 to |masters|
      invariant sv.faults >= old(sv.faults) && ListsSlots(nodes, masters[..i], sv.slots, seed)
    {
      var ok, ranges := sv.SlotsUnder(seed, masters[i]);
      if !ok {
        return None;
      }
      assert masters[..i + 1] == masters[..i] + [masters[i]];
      nodes := nodes + [NodeInfo(masters[i], masters[i], masters[i], 6379, ["master"], "", ranges, true)];
    }
    assert masters[..|masters|] == masters;
    return Some(nodes);
  }

  /** A listed master has the slots the seed names it as the owner of. */
  lemma ListedSlots(nodes: seq<NodeInfo>, masters: seq<NodeId>, c: State, seed: NodeId, d: NodeId)
    requires ListsSlots(nodes, masters, c, seed) && d in masters
    ensures FindNode(nodes, d).Some? && d in Primaries(nodes)
    ensures var node := FindNode(nodes, d).value;
            Ascending(node.slots) && forall s :: Covers(node.slots, s) <==> SeedSees(c, seed, s, d)
  {
    hide Ascending, Covers, SeedSees, FindNode;
    FindNodeIs(nodes, d);
    var i :| 0 <= i < |masters| && masters[i] == d;
    assert nodes[i].id == d;
    InPrimaries(nodes, d);
  }

  /** A batch is the lowest slots of the master, in order. */
  ghost predicate Lowest(list: seq<int>, c: State, seed: NodeId, d: NodeId) {
    && Increasing(list) && (forall s | s in list :: SeedSees(c, seed, s, d))
    && forall s, x | SeedSees(c, seed, s, d) && s !in list && x in list :: x < s
  }

  lemma ListedBatch(node: NodeInfo, c: State, seed: NodeId, d: NodeId, n: nat)
    requires Ascending(node.slots) && forall s :: Covers(node.slots, s) <==> SeedSees(c, seed, s, d)
    ensures Lowest(SlotsToMove(node, n), c, seed, d)
    ensures node.SlotCount() >= 0 && (node.SlotCount() == 0 ==> forall s :: !SeedSees(c, seed, s, d))
    ensures node.SlotCount() > 0 && n > 0 ==> SlotsToMove(node, n) != []
  {
    ExpandAscends(node.slots);
    DisjointExpand(node.slots);
    ExpandIs(node.slots);
    hide Expand, Covers, SeedSees, CountRanges, Ascending, Disjoint;
    var all, list := Expand(node.slots), SlotsToMove(node, n);
    assert all == [] ==> forall s :: s !in all;
    forall s, x | s in all && s !in list && x in list
      ensures x < s
    {
      var i :| 0 <= i < |all| && all[i] == s;
      var j :| 0 <= j < |list| && list[j] == x;
      assert list[j] == all[j];
      assert forall l | 0 <= l < |list| :: list[l] == all[l];
    }
  }

  /** The slots the seed names `d` as the owner of. */
  function Under(c: State, seed: NodeId, d: NodeId): set<int> {
    set s | s in c && SeedSees(c, seed, s, d)
  }

  lemma ListedCount(node: NodeInfo, c: State, seed: NodeId, d: NodeId, batch: int)
    requires Ascending(node.slots) && forall s :: Covers(node.slots, s) <==> SeedSees(c, seed, s, d)
    requires batch == if node.SlotCount() < DRAIN_BATCH then node.SlotCount() else DRAIN_BATCH
    ensures batch >= 0 && (node.SlotCount() > 0 ==> batch > 0) && node.SlotCount() == |Under(c, seed, d)|
    ensures batch >= 0 ==> |SlotsToMove(node, batch)| == batch
  {
    ExpandAscends(node.slots);
    DisjointExpand(node.slots);
    ExpandIs(node.slots);
    hide Expand, Covers, CountRanges, Ascending, Disjoint;
    var all := Expand(node.slots);
    DistinctSize(all);
    assert Elems(all) == Under(c, seed, d);
  }

  // ---- one pass ----

  /** The primaries of the shards beyond the declared ones are listed, and depart; no two shards have the same. */
  ghost predicate Departs(
    shards: set<nat>, desired: nat, primary: map<nat, NodeId>, masters: seq<NodeId>, departing: set<NodeId>)
  {
    && (forall i | i in shards && i >= desired :: i in primary && primary[i] in masters && primary[i] in departing)
    && forall i, j | i in shards && j in shards && desired <= i < j :: primary[i] != primary[j]
  }

  /** The masters the seed still knows once `d` is forgotten. */
  function Forgotten(masters: seq<NodeId>, d: NodeId): seq<NodeId> {
    if masters == [] then []
    else (if masters[0] == d then [] else [masters[0]]) + Forgotten(masters[1..], d)
  }

  lemma {:induction false} ForgottenIs(masters: seq<NodeId>, d: NodeId)
    ensures forall m :: m in Forgotten(masters, d) <==> m in masters && m != d
  {
    if masters != [] {
      ForgottenIs(masters[1..], d);
    }
  }

  /** `n` is the primary of a shard that is still to be removed. */
  ghost predicate Remains(shards: set<nat>, desired: nat, primary: map<nat, NodeId>, n: NodeId) {
    exists i :: i in shards && i >= desired && i in primary && primary[i] == n
  }

  /** A departing master is there only as long as its shard is. */
  ghost predicate NoneLeft(
    c: State, shards: set<nat>, desired: nat, primary: map<nat, NodeId>, departing: set<NodeId>)
  {
    forall s, n | s in c && n in c[s] && n in departing :: Remains(shards, desired, primary, n)
  }

  /** `d` is the primary of the first shard that is still to be removed. */
  ghost predicate FirstLeft(shards: set<nat>, desired: nat, primary: map<nat, NodeId>, d: NodeId) {
    exists i :: i in shards && i >= desired && i in primary && primary[i] == d
                && forall j | j in shards && j >= desired :: i <= j
  }

  /** The slot is the lowest one of the master the next pass drains. */
  ghost predicate NextUp(c: State, s: int, job: Job, shards: set<nat>, desired: nat, primary: map<nat, NodeId>)
    requires Due(c, job, s)
  {
    var d := c[s][job.seed].owner;
    FirstLeft(shards, desired, primary, d) && forall s' | SeedSees(c, job.seed, s', d) :: s <= s'
  }

  /** Between passes towards `t`: the slots that are due are aimed at `t`, and any of them that is not at rest is the
      first one the next pass takes up. */
  ghost predicate Pending(
    c: State, t: NodeId, job: Job, shards: set<nat>, desired: nat, primary: map<nat, NodeId>)
  {
    && Aimed(c, t, job)
    && forall s | Due(c, job, s) ::
         RestsOn(c[s], c[s][job.seed].owner, job.data[s]) || NextUp(c, s, job, shards, desired, primary)
  }

  lemma CalmIsPending(c: State, t: NodeId, job: Job, shards: set<nat>, desired: nat, primary: map<nat, NodeId>)
    requires Calm(c, job) && There(c, t) && t !in job.departing
    ensures Pending(c, t, job, shards, desired, primary)
  {
    hide RestsOn, OnCourse, NextUp;
    CalmIsAimed(c, t, job);
  }

  /** If the first shard to be removed has no slots, nothing is pending. */
  lemma NothingPending(
    c: State, t: NodeId, job: Job, shards: set<nat>, desired: nat, primary: map<nat, NodeId>, i: nat)
    requires Pending(c, t, job, shards, desired, primary) && i in shards && i >= desired && i in primary
    requires (forall j | j in shards && j >= desired :: i <= j) && forall s :: !SeedSees(c, job.seed, s, primary[i])
    ensures Calm(c, job)
  {
    hide RestsOn, OnCourse;
    forall s | Due(c, job, s)
      ensures RestsOn(c[s], c[s][job.seed].owner, job.data[s])
    {
      assert SeedSees(c, job.seed, s, c[s][job.seed].owner);
    }
  }

  /** The slot has been moved, and the seed told. */
  lemma MovedIsNotDue(
    c: State, c': State, list: seq<int>, ms: seq<NodeId>, d: NodeId, t: NodeId, job: Job, s: int)
    requires c'.Keys == c.Keys && AllMoved(c, c', list, ms, d, t) && job.seed in ms && t !in job.departing && s in list
    ensures !Due(c', job, s) && (s in c' && job.seed in c'[s] ==> c'[s][job.seed].owner == t)
  {
  }

  /** A batch that stops after `moved` slots, having touched one more or none, leaves at most that one not at rest; one
      that ends leaves none. */
  lemma BatchLeavesOne(
    c: State, c': State, list: seq<int>, moved: nat, touched: nat, ms: seq<NodeId>, d: NodeId, t: NodeId, job: Job,
    shards: set<nat>, desired: nat, primary: map<nat, NodeId>)
    requires Pending(c, t, job, shards, desired, primary) && Lowest(list, c, job.seed, d) && list != []
    requires FirstLeft(shards, desired, primary, d) && d in job.departing && t !in job.departing && job.seed in ms
    requires moved <= touched <= |list| && 0 < touched <= moved + 1
    requires AllWithin(c, c', list[..touched], d, t) && AllMoved(c, c', list[..moved], ms, d, t)
    ensures Pending(c', t, job, shards, desired, primary)
    ensures moved == |list| ==> Calm(c', job)
  {
    hide RestsOn, OnCourse, Advances, Moved, OnWay;
    assert forall s | s in list[..touched] :: s in list;
    BatchKeeps(c, c', list[..touched], d, t, job);
    forall s | Due(c', job, s)
      ensures RestsOn(c'[s], c'[s][job.seed].owner, job.data[s])
              || (moved < |list| && NextUp(c', s, job, shards, desired, primary))
    {
      StillDue(c, c', list, moved, touched, ms, d, t, job, shards, desired, primary, s);
    }
  }

  lemma SameFirst(shards: set<nat>, desired: nat, primary: map<nat, NodeId>, d: NodeId, d': NodeId)
    requires FirstLeft(shards, desired, primary, d) && FirstLeft(shards, desired, primary, d')
    ensures d == d'
  {
  }

  lemma StillDue(
    c: State, c': State, list: seq<int>, moved: nat, touched: nat, ms: seq<NodeId>, d: NodeId, t: NodeId, job: Job,
    shards: set<nat>, desired: nat, primary: map<nat, NodeId>, s: int)
    requires Pending(c, t, job, shards, desired, primary) && Lowest(list, c, job.seed, d) && list != []
    requires FirstLeft(shards, desired, primary, d) && d in job.departing && t !in job.departing && job.seed in ms
    requires moved <= touched <= |list| && 0 < touched <= moved + 1
    requires AllWithin(c, c', list[..touched], d, t) && AllMoved(c, c', list[..moved], ms, d, t)
    requires Aimed(c', t, job) && Due(c', job, s)
    ensures RestsOn(c'[s], c'[s][job.seed].owner, job.data[s])
            || (moved < |list| && NextUp(c', s, job, shards, desired, primary))
  {
    hide RestsOn, Advances, Moved, FirstLeft;
    if s in list[..moved] {
      MovedIsNotDue(c, c', list[..moved], ms, d, t, job, s);
    } else if s in list[..touched] {
      assert moved < |list| && s == list[moved];
      assert SeedSees(c, job.seed, s, d) && Due(c, job, s);
      DueOwner(c[s], c'[s], d, t, job, s);
      forall s' | SeedSees(c', job.seed, s', d)
        ensures s <= s'
      {
        if s' in list[..moved] {
          MovedIsNotDue(c, c', list[..moved], ms, d, t, job, s');
        } else if s' !in list[..touched] {
          assert c'[s'] == c[s'] && SeedSees(c, job.seed, s', d);
          Later(list, moved, s');
        }
      }
    } else {
      assert c'[s] == c[s] && Due(c, job, s);
      if !RestsOn(c[s], c[s][job.seed].owner, job.data[s]) {
        SameFirst(shards, desired, primary, d, c[s][job.seed].owner);
        FirstIsLowest(list, touched, c, job.seed, d, s);
      }
    }
  }

  lemma FirstIsLowest(list: seq<int>, touched: nat, c: State, seed: NodeId, d: NodeId, s: int)
    requires Lowest(list, c, seed, d) && list != [] && 0 < touched <= |list| && SeedSees(c, seed, s, d)
    requires forall s' | SeedSees(c, seed, s', d) :: s <= s'
    ensures s in list[..touched]
  {
    assert list[0] in list && list[0] == list[..touched][0];
    if s in list {
      var i :| 0 <= i < |list| && list[i] == s;
      assert i == 0;
    }
  }

  lemma Later(list: seq<int>, m: nat, s: int)
    requires Increasing(list) && m < |list| && s !in list[..m] && (s !in list ==> forall x | x in list :: x < s)
    ensures list[m] <= s
  {
    if s in list {
      var i :| 0 <= i < |list| && list[i] == s;
      assert forall l | 0 <= l < m :: list[..m][l] == list[l];
    } else {
      assert list[m] in list;
    }
  }

  lemma DueOwner(col: Column, col': Column, d: NodeId, t: NodeId, job: Job, s: int)
    requires Advances(col, col', d, t) && job.seed in col && col[job.seed].owner == d
    ensures job.seed in col' && (col'[job.seed].owner == d || col'[job.seed].owner == t)
  {
    hide InFlight, SameVisible, Backed;
  }

  /** From position `i` on the trace keeps what state `c` has: all keys held and, if `aimed`, where clients look. */
  ghost predicate Throughout(c: State, trace: seq<State>, i: nat, now: State, aimed: bool, job: Job) {
    && (AllFlowing(c, job) ==>
          AllFlowing(now, job) && forall j | i <= j < |trace| :: AllFlowing(trace[j], job))
    && (aimed && AllOnWay(c, job) ==>
          AllOnWay(now, job) && forall j | i <= j < |trace| :: AllOnWay(trace[j], job))
  }

  lemma ThroughoutNot(c: State, trace: seq<State>, aimed: bool, job: Job)
    ensures Throughout(c, trace, |trace|, c, aimed, job)
  {
  }

  lemma ThroughoutBatch(
    c: State, trace: seq<State>, i: nat, k: nat, now: State, after: State, list: seq<int>, d: NodeId, t: NodeId,
    aimed: bool, job: Job)
    requires i <= k <= |trace| && Throughout(c, trace[..k], i, now, aimed, job) && (aimed ==> Aimed(now, t, job))
    requires d in job.departing && t !in job.departing && forall s | s in list :: SeedSees(now, job.seed, s, d)
    requires AllWithin(now, after, list, d, t) && TraceAllWithin(trace, k, now, list, d, t)
    ensures Throughout(c, trace, i, after, aimed, job)
  {
    hide AllFlowing, AllOnWay, AllWithin, SeedSees, Aimed;
    BatchKeeps(now, after, list, d, t, job);
    forall j | i <= j < |trace|
      ensures AllFlowing(c, job) ==> AllFlowing(trace[j], job)
      ensures aimed && AllOnWay(c, job) ==> AllOnWay(trace[j], job)
    {
      if j < k {
        assert trace[j] == trace[..k][j];
      } else {
        BatchKeeps(now, trace[j], list, d, t, job);
      }
    }
  }

  lemma ThroughoutDelete(
    c: State, trace: seq<State>, i: nat, now: State, d: NodeId, t: NodeId, aimed: bool, job: Job)
    requires i <= |trace| && Throughout(c, trace, i, now, aimed, job)
    requires d in job.departing && job.seed !in job.departing && t !in job.departing
    requires forall s :: !SeedSees(now, job.seed, s, d)
    ensures Throughout(c, trace + [Without(now, d)], i, Without(now, d), aimed, job)
  {
    hide AllFlowing, AllOnWay, Without, SeedSees, Aimed, Calm;
    DeleteKeeps(now, d, t, job);
  }

  lemma BatchLeaves(
    c: State, c': State, list: seq<int>, d: NodeId, t: NodeId,
    shards: set<nat>, desired: nat, primary: map<nat, NodeId>, departing: set<NodeId>)
    requires AllWithin(c, c', list, d, t) && NoneLeft(c, shards, desired, primary, departing)
    ensures NoneLeft(c', shards, desired, primary, departing)
  {
    hide InFlight, SameVisible, Backed, Remains;
  }

  lemma DeleteLeaves(
    c: State, i: nat, shards: set<nat>, desired: nat, primary: map<nat, NodeId>, departing: set<NodeId>)
    requires NoneLeft(c, shards, desired, primary, departing) && i in primary
    ensures NoneLeft(Without(c, primary[i]), shards - {i}, desired, primary, departing)
  {
    var c' := Without(c, primary[i]);
    forall s, n | s in c' && n in c'[s] && n in departing
      ensures Remains(shards - {i}, desired, primary, n)
    {
      assert n in c[s] && n != primary[i];
      var j :| j in shards && j >= desired && j in primary && primary[j] == n;
      assert j in shards - {i};
    }
  }

  /** The masters that do not depart keep their views. */
  ghost predicate Stays(c: State, c': State, departing: set<NodeId>) {
    c'.Keys == c.Keys && forall s, n | s in c && n in c[s] && n !in departing :: n in c'[s]
  }

  lemma BatchStays(c: State, c': State, list: seq<int>, d: NodeId, t: NodeId, departing: set<NodeId>)
    requires AllWithin(c, c', list, d, t)
    ensures Stays(c, c', departing)
  {
    hide InFlight, SameVisible, Backed;
  }

  lemma StaysOn(a: State, b: State, c: State, departing: set<NodeId>)
    requires Stays(a, b, departing) && Stays(b, c, departing)
    ensures Stays(a, c, departing)
  {
  }

  lemma StaysThere(c: State, c': State, departing: set<NodeId>, t: NodeId)
    requires Stays(c, c', departing) && t !in departing && There(c, t)
    ensures There(c', t)
  {
  }

  lemma DeleteStays(c: State, d: NodeId, departing: set<NodeId>)
    requires d in departing
    ensures Stays(c, Without(c, d), departing)
  {
  }

  lemma DeletePending(
    c: State, t: NodeId, job: Job, shards: set<nat>, desired: nat, primary: map<nat, NodeId>, i: nat)
    requires Pending(c, t, job, shards, desired, primary) && i in shards && i >= desired && i in primary
    requires (forall j | j in shards && j >= desired :: i <= j) && forall s :: !SeedSees(c, job.seed, s, primary[i])
    requires primary[i] in job.departing && job.seed !in job.departing && t !in job.departing
    ensures Calm(Without(c, primary[i]), job) && Pending(Without(c, primary[i]), t, job, shards - {i}, desired, primary)
  {
    hide RestsOn, OnCourse, NextUp, AllFlowing, AllOnWay, Without;
    NothingPending(c, t, job, shards, desired, primary, i);
    DeleteKeeps(c, primary[i], t, job);
  }

  lemma IsFirstLeft(shards: set<nat>, desired: nat, primary: map<nat, NodeId>, i: nat)
    requires i in shards && i >= desired && i in primary && forall j | j in shards && j >= desired :: i <= j
    ensures FirstLeft(shards, desired, primary, primary[i])
  {
  }

  lemma StaysNot(c: State, departing: set<NodeId>)
    ensures Stays(c, c, departing)
  {
  }

  /** The shards to be removed are still ahead, in ascending order. */
  ghost predicate ToVisit(shards: set<nat>, idxs: seq<nat>, desired: nat, k: nat) {
    && k <= |idxs| && (forall a, b | 0 <= a < b < |idxs| :: idxs[a] < idxs[b])
    && (forall l | k <= l < |idxs| :: idxs[l] in shards)
    && forall j | j in shards && j >= desired :: j in idxs[k..]
  }

  lemma AllToVisit(shards: set<nat>, idxs: seq<nat>, desired: nat)
    requires idxs == Sorted(shards)
    ensures ToVisit(shards, idxs, desired, 0)
  {
    hide Sorted;
    assert idxs[0..] == idxs;
  }

  lemma VisitNext(shards: set<nat>, idxs: seq<nat>, desired: nat, k: nat)
    requires ToVisit(shards, idxs, desired, k) && k < |idxs|
    ensures idxs[k] in shards && forall j | j in shards && j >= desired :: idxs[k] <= j
    ensures idxs[k] < desired ==> ToVisit(shards, idxs, desired, k + 1)
    ensures ToVisit(shards - {idxs[k]}, idxs, desired, k + 1)
  {
    forall j | j in shards && j >= desired
      ensures idxs[k] <= j && (j == idxs[k] || j in idxs[k + 1..])
    {
      assert idxs[k..] == [idxs[k]] + idxs[k + 1..];
      var l :| 0 <= l < |idxs[k..]| && idxs[k..][l] == j;
      assert j == idxs[k + l];
    }
  }

  lemma NothingDue(
    c: State, t: NodeId, job: Job, shards: set<nat>, idxs: seq<nat>, desired: nat, primary: map<nat, NodeId>)
    requires Pending(c, t, job, shards, desired, primary) && ToVisit(shards, idxs, desired, |idxs|)
    ensures Calm(c, job)
  {
    hide RestsOn, OnCourse;
    assert idxs[|idxs|..] == [];
  }

  lemma DepartsAt(
    shards: set<nat>, desired: nat, primary: map<nat, NodeId>, masters: seq<NodeId>, departing: set<NodeId>, i: nat)
    requires Departs(shards, desired, primary, masters, departing) && i in shards && i >= desired
    ensures i in primary && primary[i] in masters && primary[i] in departing
    ensures Departs(shards - {i}, desired, primary, Forgotten(masters, primary[i]), departing)
  {
    ForgottenIs(masters, primary[i]);
    hide Forgotten;
  }

  lemma LowestSeen(list: seq<int>, k: nat, c: State, seed: NodeId, d: NodeId)
    requires Lowest(list, c, seed, d) && k <= |list|
    ensures forall s | s in list[..k] :: SeedSees(c, seed, s, d)
  {
    assert forall s | s in list[..k] :: s in list;
  }

  lemma PendingAims(c: State, t: NodeId, job: Job, shards: set<nat>, desired: nat, primary: map<nat, NodeId>)
    requires Pending(c, t, job, shards, desired, primary)
    ensures Aimed(c, t, job)
  {
  }
}
