/** Scale-in passes against live masters: what each keeps wherever it stops, what it achieves if nothing fails, and how
    many of them it takes. */
module Passes {
  import opened Wrappers
  import opened Cluster
  import opened SlotState
  import opened Routing
  import opened Masters
  import opened Mover
  import opened Membership
  import opened Teardown
  import opened Drain
  import Departure

  // ---- what a pass achieves ----

  /** The masters with a view of the slots are exactly those listed. */
  ghost predicate Roster(c: State, masters: seq<NodeId>) {
    forall s | s in c :: forall m :: m in c[s] <==> m in masters
  }

  /** The departing shards before `next`, or all of them. */
  function Gone(shards: set<nat>, desired: nat, next: Option<nat>): set<nat> {
    set i | i in shards && i >= desired && (next.None? || i < next.value)
  }

  /** Their primaries. */
  function PrimariesOf(gone: set<nat>, primary: map<nat, NodeId>): set<NodeId> {
    set i | i in gone && i in primary :: primary[i]
  }

  /** The batch is the lowest slots the seed names `d` as the owner of: 1024 of them, or all if there are fewer. */
  ghost predicate Took(c: State, seed: NodeId, d: NodeId, batch: set<int>) {
    && batch <= Under(c, seed, d) && |batch| == Batch(|Under(c, seed, d)|)
    && forall x, s | x in batch && s in Under(c, seed, d) && s !in batch :: x < s
  }

  /** The batch rests on `t` with its keys; the other slots have only lost the views of the masters deleted. */
  ghost predicate Handed(c0: State, c: State, batch: set<int>, deleted: set<NodeId>, t: NodeId, job: Job) {
    && c.Keys == c0.Keys == job.data.Keys
    && forall s | s in c0 ::
         if s in batch then c[s].Keys == c0[s].Keys - deleted && RestsOn(c[s], t, job.data[s])
         else c[s] == c0[s] - deleted
  }

  /** What one pass does when nothing fails: it deletes the departing shards the seed lists no slots for, up to the
      first that has some, and moves one batch of those; or, if there is none, it deletes all departing shards. */
  ghost predicate PassDid(
    c0: State, c: State, shards: set<nat>, left: set<nat>, desired: nat, primary: map<nat, NodeId>, t: NodeId, job: Job,
    next: Option<nat>, batch: set<int>)
  {
    var gone := Gone(shards, desired, next);
    && left == shards - gone && (forall i | i in gone :: i in primary && Under(c0, job.seed, primary[i]) == {})
    && (match next
        case None => batch == {}
        case Some(i) =>
          && i in shards && i >= desired && i in primary && Under(c0, job.seed, primary[i]) != {}
          && Took(c0, job.seed, primary[i], batch))
    && Handed(c0, c, batch, PrimariesOf(gone, primary), t, job)
  }

  // ---- deleting the empty ones ----

  /** The shards in `gone` had no slots and are deleted; nothing else has changed. */
  ghost predicate Dropping(
    c0: State, c: State, shards: set<nat>, left: set<nat>, desired: nat, primary: map<nat, NodeId>, job: Job,
    gone: set<nat>)
  {
    && gone <= shards && left == shards - gone
    && (forall i | i in gone :: i >= desired && i in primary && Under(c0, job.seed, primary[i]) == {})
    && c.Keys == c0.Keys && (forall s | s in c0 :: c[s] == c0[s] - PrimariesOf(gone, primary))
    && job.seed !in PrimariesOf(gone, primary)
  }

  lemma DroppingNone(
    c: State, shards: set<nat>, desired: nat, primary: map<nat, NodeId>, job: Job, masters: seq<NodeId>)
    ensures Dropping(c, c, shards, shards, desired, primary, job, {})
  {
  }

  lemma SameUnder(c0: State, c: State, deleted: set<NodeId>, seed: NodeId, d: NodeId)
    requires c.Keys == c0.Keys && (forall s | s in c0 :: c[s] == c0[s] - deleted) && seed !in deleted
    ensures Under(c, seed, d) == Under(c0, seed, d)
  {
  }

  lemma PrimariesOfMore(gone: set<nat>, primary: map<nat, NodeId>, i: nat)
    requires i in primary
    ensures PrimariesOf(gone + {i}, primary) == PrimariesOf(gone, primary) + {primary[i]}
  {
    var more := PrimariesOf(gone + {i}, primary);
    forall n
      ensures n in more <==> n in PrimariesOf(gone, primary) || n == primary[i]
    {
      if n == primary[i] {
        assert i in gone + {i};
      }
    }
  }

  lemma DroppingNext(
    c0: State, c: State, shards: set<nat>, left: set<nat>, desired: nat, primary: map<nat, NodeId>, job: Job,
    gone: set<nat>, i: nat, known: seq<NodeId>, t: NodeId)
    requires Dropping(c0, c, shards, left, desired, primary, job, gone) && Smooth(c, known, t, job)
    requires i in left && i >= desired && i in primary && primary[i] in job.departing && job.seed !in job.departing
    requires t !in job.departing
    requires forall s :: !SeedSees(c, job.seed, s, primary[i])
    ensures Dropping(c0, Without(c, primary[i]), shards, left - {i}, desired, primary, job, gone + {i})
    ensures Smooth(Without(c, primary[i]), Forgotten(known, primary[i]), t, job)
  {
    hide Calm, Forgotten, SeedSees, AllFlowing, AllOnWay, Aimed;
    var d := primary[i];
    DeleteKeeps(c, d, t, job);
    SameUnder(c0, c, PrimariesOf(gone, primary), job.seed, d);
    PrimariesOfMore(gone, primary, i);
    hide PrimariesOf;
    ForgottenIs(known, d);
    var c' := Without(c, d);
    forall s | s in c0
      ensures c'[s] == c0[s] - PrimariesOf(gone + {i}, primary)
    {
      assert c[s] == c0[s] - PrimariesOf(gone, primary);
    }
    forall s, m | s in c'
      ensures m in c'[s] <==> m in Forgotten(known, d)
    {
      assert m in c[s] <==> m in known;
    }
    assert left - {i} == shards - (gone + {i});
    assert Under(c0, job.seed, d) == {};
  }

  lemma AllDropped(
    c0: State, c: State, shards: set<nat>, left: set<nat>, idxs: seq<nat>, desired: nat, primary: map<nat, NodeId>,
    t: NodeId, job: Job, gone: set<nat>)
    requires Dropping(c0, c, shards, left, desired, primary, job, gone) && ToVisit(left, idxs, desired, |idxs|)
    requires c0.Keys == job.data.Keys
    ensures PassDid(c0, c, shards, left, desired, primary, t, job, None, {})
  {
    assert idxs[|idxs|..] == [];
    forall i
      ensures i in Gone(shards, desired, None) <==> i in gone
    {
      assert i in shards && i !in gone ==> i in left;
    }
    assert Gone(shards, desired, None) == gone;
    hide PrimariesOf, Under, Gone;
  }

  // ---- the batch ----

  lemma CalmThere(
    c: State, masters: seq<NodeId>, t: NodeId, job: Job, shards: set<nat>, desired: nat, primary: map<nat, NodeId>)
    requires Smooth(c, masters, t, job) && t !in job.departing
    ensures Pending(c, t, job, shards, desired, primary) && c.Keys == job.data.Keys
  {
    assert There(c, t);
    CalmIsPending(c, t, job, shards, desired, primary);
  }

  lemma ListedRoster(nodes: seq<NodeInfo>, masters: seq<NodeId>, c: State, seed: NodeId)
    requires ListsSlots(nodes, masters, c, seed)
    ensures forall m :: m in Primaries(nodes) <==> m in masters
    ensures Roster(c, masters) ==> Roster(c, Primaries(nodes))
  {
    hide Primaries, Ascending, Covers, SeedSees;
    forall m
      ensures m in Primaries(nodes) <==> m in masters
    {
      InPrimaries(nodes, m);
      if m in masters {
        var i :| 0 <= i < |masters| && masters[i] == m;
        assert nodes[i].id == m;
      }
    }
  }

  lemma RosterHasMasters(c: State, nodes: seq<NodeInfo>, s: int)
    requires Roster(c, Primaries(nodes)) && s in c
    ensures HasMasters(c[s], nodes)
  {
    hide Primaries;
    forall i | 0 <= i < |nodes| && nodes[i].IsPrimary()
      ensures nodes[i].id in c[s]
    {
      InPrimaries(nodes, nodes[i].id);
    }
  }

  /** A slot at rest on `d` with a view on `t` is one the mover takes. */
  lemma DueMoves(c: State, s: int, d: NodeId, t: NodeId, job: Job)
    requires Calm(c, job) && SeedSees(c, job.seed, s, d) && d in job.departing && t !in job.departing && t in c[s]
    ensures RestsOn(c[s], d, job.data[s]) && InFlight(c[s], d, t) && Visible(c[s], d, t) == job.data[s]
  {
    hide Settled, InFlight, Visible;
    assert Due(c, job, s);
    SettledThere(c[s], d);
    SettledIsInFlight(c[s], d, t);
  }

  lemma CalmMovable(c: State, list: seq<int>, nodes: seq<NodeInfo>, d: NodeId, t: NodeId, job: Job)
    requires Smooth(c, Primaries(nodes), t, job) && Lowest(list, c, job.seed, d)
    requires d in job.departing && t !in job.departing
    ensures Movable(c, list, nodes, d, t)
  {
    hide Calm, InFlight, Primaries, HasMasters, Visible, RestsOn;
    forall s | s in list
      ensures s in c && InFlight(c[s], d, t) && HasMasters(c[s], nodes)
    {
      assert SeedSees(c, job.seed, s, d);
      assert t in c[s];
      DueMoves(c, s, d, t, job);
      RosterHasMasters(c, nodes, s);
    }
  }

  lemma BatchHanded(
    c: State, c': State, trace: seq<State>, i: nat, list: seq<int>, nodes: seq<NodeInfo>, d: NodeId, t: NodeId,
    job: Job)
    requires Smooth(c, Primaries(nodes), t, job) && Lowest(list, c, job.seed, d)
    requires d in job.departing && t !in job.departing
    requires Run(c, c', trace, i, list, |list|, |list|, Primaries(nodes), d, t)
    ensures Handed(c, c', Elems(list), {}, t, job)
  {
    hide Calm, Primaries, HandedOver, Visible, Advances, AllMoved, AlwaysReadable, AllInterrupted, Settled;
    assert list[..|list|] == list && Distinct(list);
    CalmKeys(c, job);
    forall s | s in c
      ensures if s in list then c'[s].Keys == c[s].Keys - {} && RestsOn(c'[s], t, job.data[s]) else c'[s] == c[s] - {}
    {
      if s in list {
        assert SeedSees(c, job.seed, s, d) && t in c[s];
        DueMoves(c, s, d, t, job);
        HandedOverIsSettled(c[s], d, t);
        HandedOverKeys(c[s], d, t);
      } else {
        assert c[s] - {} == c[s];
      }
    }
  }

  lemma HandedOverKeys(col: Column, src: NodeId, dst: NodeId)
    requires src in col && dst in col
    ensures HandedOver(col, src, dst).Keys == col.Keys
  {
  }

  lemma CalmKeys(c: State, job: Job)
    requires Calm(c, job)
    ensures c.Keys == job.data.Keys
  {
  }

  /** The batch of the first shard that has slots, after the empty ones before it were deleted. */
  lemma BatchDid(
    c0: State, c: State, c': State, shards: set<nat>, left: set<nat>, idxs: seq<nat>, k: nat, desired: nat,
    primary: map<nat, NodeId>, t: NodeId, job: Job, gone: set<nat>, list: seq<int>, known: seq<NodeId>)
    requires Dropping(c0, c, shards, left, desired, primary, job, gone) && ToVisit(left, idxs, desired, k) && k < |idxs|
    requires DoneBefore(gone, idxs, k) && idxs[k] >= desired && idxs[k] in primary
    requires Lowest(list, c, job.seed, primary[idxs[k]]) && list != []
    requires |list| == Batch(|Under(c, job.seed, primary[idxs[k]])|)
    requires Handed(c, c', Elems(list), {}, t, job) && Smooth(c, known, t, job) && Calm(c', job)
    requires primary[idxs[k]] in job.departing && t !in job.departing
    ensures Smooth(c', known, t, job)
    ensures PassDid(c0, c', shards, left, desired, primary, t, job, Some(idxs[k]), Elems(list))
  {
    var i := idxs[k];
    var d, deleted := primary[i], PrimariesOf(gone, primary);
    BeforeIt(shards, left, idxs, k, desired, gone);
    SameUnder(c0, c, deleted, job.seed, d);
    LowestTook(list, c, job.seed, d);
    SomeUnder(list, c, job.seed, d);
    hide PrimariesOf, Under, Lowest, ToVisit, Elems, Batch, Gone, Handed, Took, Roster;
    HandedAfter(c0, c, c', Elems(list), deleted, t, job);
    SameRoster(c, c', Elems(list), t, job, known);
  }

  lemma HandedAfter(c0: State, c: State, c': State, batch: set<int>, deleted: set<NodeId>, t: NodeId, job: Job)
    requires c.Keys == c0.Keys && (forall s | s in c0 :: c[s] == c0[s] - deleted) && Handed(c, c', batch, {}, t, job)
    ensures Handed(c0, c', batch, deleted, t, job)
  {
    hide RestsOn;
    forall s | s in c0
      ensures c'[s].Keys == c0[s].Keys - deleted && (s !in batch ==> c'[s] == c0[s] - deleted)
    {
      assert c[s] - {} == c[s] && c[s].Keys - {} == c[s].Keys;
    }
  }

  lemma SameRoster(c: State, c': State, batch: set<int>, t: NodeId, job: Job, known: seq<NodeId>)
    requires Handed(c, c', batch, {}, t, job) && Roster(c, known)
    ensures Roster(c', known)
  {
    hide RestsOn;
    forall s, m | s in c'
      ensures m in c'[s] <==> m in known
    {
      assert m in c[s] <==> m in known;
      assert c[s] - {} == c[s] && c[s].Keys - {} == c[s].Keys;
    }
  }

  /** The shards deleted are those before the one visited. */
  lemma BeforeIt(shards: set<nat>, left: set<nat>, idxs: seq<nat>, k: nat, desired: nat, gone: set<nat>)
    requires ToVisit(left, idxs, desired, k) && k < |idxs| && gone <= shards && left == shards - gone
    requires forall g | g in gone :: g >= desired && g in idxs[..k]
    ensures Gone(shards, desired, Some(idxs[k])) == gone && idxs[k] in shards && idxs[k] !in gone
  {
    VisitNext(left, idxs, desired, k);
    forall g | g in gone
      ensures g < idxs[k]
    {
      var l :| 0 <= l < k && idxs[..k][l] == g;
    }
    forall j | j in shards && desired <= j < idxs[k]
      ensures j in gone
    {
      assert j in left || j in gone;
    }
  }

  lemma SomeUnder(list: seq<int>, c: State, seed: NodeId, d: NodeId)
    requires Lowest(list, c, seed, d) && list != []
    ensures Under(c, seed, d) != {}
  {
    assert list[0] in list && SeedSees(c, seed, list[0], d);
    assert list[0] in Under(c, seed, d);
  }

  lemma LowestTook(list: seq<int>, c: State, seed: NodeId, d: NodeId)
    requires Lowest(list, c, seed, d) && |list| == Batch(|Under(c, seed, d)|)
    ensures Took(c, seed, d, Elems(list))
  {
    DistinctSize(list);
  }

  // ---- one pass ----

  /** What holds at every point of a pass, wherever it stops: all that the states passed through keep, and that only
      departing shards and masters have gone. */
  ghost predicate Kept(
    c0: State, c: State, trace: seq<State>, since: nat, shards0: set<nat>, shards: set<nat>, desired: nat,
    primary: map<nat, NodeId>, masters: seq<NodeId>, known: seq<NodeId>, t: NodeId, job: Job)
  {
    && Departs(shards, desired, primary, known, job.departing) && Knows(masters, known, job.departing)
    && shards <= shards0 && (forall i | i in shards0 && i < desired :: i in shards)
    && since <= |trace| && Throughout(c0, trace, since, c, Aimed(c0, t, job), job)
    && (Aimed(c0, t, job) ==> Aimed(c, t, job))
    && (Pending(c0, t, job, shards0, desired, primary) ==> Pending(c, t, job, shards, desired, primary))
    && Stays(c0, c, job.departing)
    && (NoneLeft(c0, shards0, desired, primary, job.departing) ==> NoneLeft(c, shards, desired, primary, job.departing))
  }

  /** The masters that do not depart are still known. */
  ghost predicate Knows(masters: seq<NodeId>, known: seq<NodeId>, departing: set<NodeId>) {
    forall m | m !in departing :: m in known <==> m in masters
  }

  lemma KnowsAt(masters: seq<NodeId>, known: seq<NodeId>, departing: set<NodeId>, m: NodeId)
    requires Knows(masters, known, departing) && m !in departing
    ensures m in known <==> m in masters
  {
  }

  lemma KnowsAll(masters: seq<NodeId>, departing: set<NodeId>)
    ensures Knows(masters, masters, departing)
  {
  }

  lemma KnowsMore(masters: seq<NodeId>, known: seq<NodeId>, rest: seq<NodeId>, departing: set<NodeId>)
    requires Knows(masters, known, departing) && Knows(known, rest, departing)
    ensures Knows(masters, rest, departing)
  {
  }

  lemma KnowsOn(masters: seq<NodeId>, known: seq<NodeId>, departing: set<NodeId>, d: NodeId)
    requires Knows(masters, known, departing) && d in departing
    ensures Knows(masters, Forgotten(known, d), departing)
  {
    ForgottenIs(known, d);
    hide Forgotten;
  }

  lemma KeptStart(
    c: State, trace: seq<State>, shards: set<nat>, desired: nat, primary: map<nat, NodeId>, masters: seq<NodeId>,
    t: NodeId, job: Job)
    requires Departs(shards, desired, primary, masters, job.departing)
    ensures Kept(c, c, trace, |trace|, shards, shards, desired, primary, masters, masters, t, job)
  {
    hide Departs, Aimed, Pending, NoneLeft, Throughout, Stays;
    ThroughoutNot(c, trace, Aimed(c, t, job), job);
    StaysNot(c, job.departing);
  }

  /** A shard the seed lists no slots for is deleted. */
  lemma KeptDelete(
    c0: State, c: State, trace: seq<State>, since: nat, shards0: set<nat>, shards: set<nat>, desired: nat,
    primary: map<nat, NodeId>, masters: seq<NodeId>, known: seq<NodeId>, t: NodeId, job: Job, i: nat)
    requires Kept(c0, c, trace, since, shards0, shards, desired, primary, masters, known, t, job)
    requires i in shards && i >= desired && i in primary && primary[i] in job.departing
    requires forall j | j in shards && j >= desired :: i <= j
    requires job.seed !in job.departing && t !in job.departing && forall s :: !SeedSees(c, job.seed, s, primary[i])
    ensures var d := primary[i];
            Kept(c0, Without(c, d), trace + [Without(c, d)], since, shards0, shards - {i}, desired, primary, masters,
                 Forgotten(known, d), t, job)
  {
    hide Departs, Aimed, Pending, NoneLeft, Throughout, Stays, Forgotten, Without, SeedSees, AllFlowing, AllOnWay, Calm;
    hide Knows;
    var d := primary[i];
    DepartsAt(shards, desired, primary, known, job.departing, i);
    KnowsOn(masters, known, job.departing, d);
    ThroughoutDelete(c0, trace, since, c, d, t, Aimed(c0, t, job), job);
    DeleteKeeps(c, d, t, job);
    if Pending(c0, t, job, shards0, desired, primary) {
      DeletePending(c, t, job, shards, desired, primary, i);
    }
    if NoneLeft(c, shards, desired, primary, job.departing) {
      DeleteLeaves(c, i, shards, desired, primary, job.departing);
    }
    DeleteStays(c, d, job.departing);
    StaysOn(c0, c, Without(c, d), job.departing);
  }

  /** A batch is moved, or part of one. */
  lemma KeptBatch(
    c0: State, c: State, c': State, trace: seq<State>, since: nat, k: nat, shards0: set<nat>, shards: set<nat>,
    desired: nat, primary: map<nat, NodeId>, masters: seq<NodeId>, known: seq<NodeId>, t: NodeId, job: Job,
    list: seq<int>, moved: nat, touched: nat, ms: seq<NodeId>, d: NodeId)
    requires k <= |trace| && Kept(c0, c, trace[..k], since, shards0, shards, desired, primary, masters, known, t, job)
    requires Lowest(list, c, job.seed, d) && list != [] && FirstLeft(shards, desired, primary, d) && job.seed in ms
    requires d in job.departing && t !in job.departing && moved <= touched <= |list| && 0 < touched <= moved + 1
    requires AllWithin(c, c', list[..touched], d, t) && TraceAllWithin(trace, k, c, list[..touched], d, t)
    requires c'.Keys == c.Keys && AllMoved(c, c', list[..moved], ms, d, t)
    ensures Kept(c0, c', trace, since, shards0, shards, desired, primary, masters, known, t, job)
    ensures Pending(c0, t, job, shards0, desired, primary) && moved == |list| ==> Calm(c', job)
  {
    hide Departs, Aimed, Pending, NoneLeft, Throughout, Stays, Knows, Lowest, FirstLeft, AllWithin, TraceAllWithin;
    hide AllMoved, AllFlowing, AllOnWay, Calm;
    LowestSeen(list, touched, c, job.seed, d);
    BatchKeeps(c, c', list[..touched], d, t, job);
    if Pending(c0, t, job, shards0, desired, primary) {
      BatchLeavesOne(c, c', list, moved, touched, ms, d, t, job, shards, desired, primary);
    }
    ThroughoutBatch(c0, trace, since, k, c, c', list[..touched], d, t, Aimed(c0, t, job), job);
    BatchStays(c, c', list[..touched], d, t, job.departing);
    StaysOn(c0, c, c', job.departing);
    if NoneLeft(c, shards, desired, primary, job.departing) {
      BatchLeaves(c, c', list[..touched], d, t, shards, desired, primary, job.departing);
    }
  }

  lemma RunParts(
    c0: State, c: State, trace: seq<State>, i: nat, list: seq<int>, done: nat, touched: nat,
    ms: seq<NodeId>, src: NodeId, dst: NodeId)
    requires done <= touched <= |list| && Run(c0, c, trace, i, list, done, touched, ms, src, dst)
    ensures AllWithin(c0, c, list[..touched], src, dst) && TraceAllWithin(trace, i, c0, list[..touched], src, dst)
    ensures c.Keys == c0.Keys && AllMoved(c0, c, list[..done], ms, src, dst)
  {
    hide Advances, Moved, AllHandedOver, AlwaysReadable, AllInterrupted;
  }

  /** Nothing stands in the way of a pass: what is due is at rest, and all masters are listed, among them the
      survivor. */
  ghost predicate Smooth(c: State, masters: seq<NodeId>, t: NodeId, job: Job) {
    Calm(c, job) && Roster(c, masters) && t in masters
  }

  lemma SmoothIs(c: State, masters: seq<NodeId>, t: NodeId, job: Job)
    ensures Smooth(c, masters, t, job) <==> Calm(c, job) && Roster(c, masters) && t in masters
  {
  }

  /** One batch of the slots of `d`, the first master that has any. */
  method DrainBatch(
    sv: Servers, nodes: seq<NodeInfo>, node: NodeInfo, d: NodeId, t: NodeId, batch: nat,
    ghost start: State, ghost since: nat, ghost shards0: set<nat>, ghost shards: set<nat>, ghost desired: nat,
    ghost primary: map<nat, NodeId>, ghost masters: seq<NodeId>, ghost known: seq<NodeId>, ghost job: Job)
    returns (err: bool)
    requires Kept(start, sv.slots, sv.trace, since, shards0, shards, desired, primary, masters, known, t, job)
    requires FindNode(nodes, d) == Some(node) && batch > 0 && SlotsToMove(node, batch) != []
    requires Lowest(SlotsToMove(node, batch), sv.slots, job.seed, d)
    requires job.seed in Primaries(nodes) && d in job.departing && t !in job.departing
    requires FirstLeft(shards, desired, primary, d)
    modifies sv
    ensures old(sv.trace) <= sv.trace && sv.faults >= old(sv.faults)
    ensures Kept(start, sv.slots, sv.trace, since, shards0, shards, desired, primary, masters, known, t, job)
    ensures Pending(start, t, job, shards0, desired, primary) && !err ==> Calm(sv.slots, job)
    ensures (sv.faults == old(sv.faults) && Smooth(old(sv.slots), Primaries(nodes), t, job)
             && FindNode(nodes, t).Some?) ==>
              !err && Handed(old(sv.slots), sv.slots, Elems(SlotsToMove(node, batch)), {}, t, job)
  {
    hide *;
    ghost var now, before, list := sv.slots, sv.trace, SlotsToMove(node, batch);
    ghost var smooth := Smooth(now, Primaries(nodes), t, job);
    if smooth {
      CalmMovable(now, list, nodes, d, t, job);
    }
    var moved;
    moved, err := MoveSlots(sv, Some(nodes), d, t, batch);
    assert sv.trace[..|before|] == before;
    if FindNode(nodes, t).Some? {
      ghost var touched := if err then moved + 1 else moved;
      RunParts(now, sv.slots, sv.trace, |before|, list, moved, touched, Primaries(nodes), d, t);
      KeptBatch(start, now, sv.slots, sv.trace, since, |before|, shards0, shards, desired, primary, masters, known, t,
                job, list, moved, touched, Primaries(nodes), d);
      if smooth && !err {
        BatchHanded(now, sv.slots, sv.trace, |before|, list, nodes, d, t, job);
      }
    } else {
      assert sv.trace == before;
    }
  }

  /** One scale-in pass against live masters. A departing shard is deleted only if the seed names its primary as no
      slot's owner; from the first that has slots one batch is moved to `t`, stopping anywhere. No key is ever lost. If
      the slots that are due were aimed at `t` they stay so, and all keys stay where clients look. If at most the one
      the pass takes up first was not at rest, that is so again afterwards, and if the pass ends without error all that
      is due is at rest. If nothing fails and nothing stands in the way, it does what `PassDid` says. */
  method ScaleInPass(
    sv: Servers, w: Workloads, desired: nat, primary: map<nat, NodeId>, masters: seq<NodeId>, seed: NodeId, t: NodeId,
    ghost job: Job)
    returns (err: bool, known: seq<NodeId>, ghost next: Option<nat>, ghost batch: set<int>)
    requires job.seed == seed && seed in masters && seed !in job.departing && t !in job.departing
    requires Departs(w.shards, desired, primary, masters, job.departing)
    modifies sv, w
    ensures old(sv.trace) <= sv.trace && sv.faults >= old(sv.faults)
    ensures Kept(old(sv.slots), sv.slots, sv.trace, |old(sv.trace)|, old(w.shards), w.shards, desired, primary,
                 masters, known, t, job)
    ensures Pending(old(sv.slots), t, job, old(w.shards), desired, primary) && !err ==> Calm(sv.slots, job)
    ensures sv.faults == old(sv.faults) && Smooth(old(sv.slots), masters, t, job) ==>
              && !err && Smooth(sv.slots, known, t, job)
              && PassDid(old(sv.slots), sv.slots, old(w.shards), w.shards, desired, primary, t, job, next, batch)
  {
    hide *;
    err, known, next, batch := false, masters, None, {};
    ghost var c0, since, shards0, gone: set<nat> := sv.slots, |sv.trace|, w.shards, {};
    ghost var smooth := Smooth(c0, masters, t, job);
    KeptStart(c0, sv.trace, shards0, desired, primary, masters, t, job);
    if smooth {
      DroppingNone(c0, shards0, desired, primary, job, masters);
      CalmThere(c0, masters, t, job, shards0, desired, primary);
    }
    var idxs := ExistingShardIndexes(w);
    AllToVisit(w.shards, idxs, desired);
    NoneDone(idxs);
    for k := 0 to |idxs|
      invariant old(sv.trace) <= sv.trace && sv.faults >= old(sv.faults) && ToVisit(w.shards, idxs, desired, k)
      invariant Kept(c0, sv.slots, sv.trace, since, shards0, w.shards, desired, primary, masters, known, t, job)
      invariant smooth && sv.faults == old(sv.faults) ==>
                  && Dropping(c0, sv.slots, shards0, w.shards, desired, primary, job, gone)
                  && Smooth(sv.slots, known, t, job) && DoneBefore(gone, idxs, k)
    {
      var i := idxs[k];
      VisitNext(w.shards, idxs, desired, k);
      DoneNext(gone, idxs, k);
      if i < desired {
        continue;
      }
      KeptShard(c0, sv.slots, sv.trace, since, shards0, w.shards, desired, primary, masters, known, t, job, i);
      var listing := ListMasters(sv, seed, known);
      if listing.None? {
        err := true;
        return;
      }
      var d := primary[i];
      ListedSlots(listing.value, known, sv.slots, seed, d);
      ListedSlots(listing.value, known, sv.slots, seed, seed);
      var node := FindNode(listing.value, d).value;
      var count := if node.SlotCount() < DRAIN_BATCH then node.SlotCount() else DRAIN_BATCH;
      ListedCount(node, sv.slots, seed, d, count);
      ListedBatch(node, sv.slots, seed, d, count);
      if node.SlotCount() > 0 {
        ghost var now := sv.slots;
        ghost var asked := smooth && sv.faults == old(sv.faults);
        if asked {
          ListedSmooth(listing.value, known, now, seed, t, job);
        }
        IsFirstLeft(w.shards, desired, primary, i);
        err := DrainBatch(sv, listing.value, node, d, t, count, c0, since, shards0, w.shards, desired, primary, masters,
                          known, job);
        if asked && sv.faults == old(sv.faults) {
          next, batch := Some(i), Elems(SlotsToMove(node, count));
          BatchIs(|Under(now, seed, d)|);
          BatchDid(c0, now, sv.slots, shards0, w.shards, idxs, k, desired, primary, t, job, gone,
                   SlotsToMove(node, count), known);
        }
        return;
      }
      KeptDelete(c0, sv.slots, sv.trace, since, shards0, w.shards, desired, primary, masters, known, t, job, i);
      if smooth && sv.faults == old(sv.faults) {
        DroppingNext(c0, sv.slots, shards0, w.shards, desired, primary, job, gone, i, known, t);
        gone := gone + {i};
      }
      known := Forgotten(known, d);
      sv.Remove(d);
      w.DeleteShard(i);
    }
    KeptParts(c0, sv.slots, sv.trace, since, shards0, w.shards, desired, primary, masters, known, t, job);
    if Pending(c0, t, job, shards0, desired, primary) {
      NothingDue(sv.slots, t, job, w.shards, idxs, desired, primary);
    }
    if smooth && sv.faults == old(sv.faults) {
      AllDropped(c0, sv.slots, shards0, w.shards, idxs, desired, primary, t, job, gone);
    }
  }

  /** The shards deleted so far come before the one to be visited. */
  ghost predicate DoneBefore(gone: set<nat>, idxs: seq<nat>, k: nat) {
    k <= |idxs| && forall g | g in gone :: g in idxs[..k]
  }

  lemma NoneDone(idxs: seq<nat>)
    ensures DoneBefore({}, idxs, 0)
  {
  }

  lemma DoneNext(gone: set<nat>, idxs: seq<nat>, k: nat)
    requires k < |idxs|
    ensures DoneBefore(gone, idxs, k) ==> DoneBefore(gone, idxs, k + 1) && DoneBefore(gone + {idxs[k]}, idxs, k + 1)
  {
    assert idxs[..k + 1] == idxs[..k] + [idxs[k]];
  }

  lemma KeptShard(
    c0: State, c: State, trace: seq<State>, since: nat, shards0: set<nat>, shards: set<nat>, desired: nat,
    primary: map<nat, NodeId>, masters: seq<NodeId>, known: seq<NodeId>, t: NodeId, job: Job, i: nat)
    requires Kept(c0, c, trace, since, shards0, shards, desired, primary, masters, known, t, job)
    requires i in shards && i >= desired && job.seed in masters && job.seed !in job.departing
    ensures i in primary && primary[i] in known && primary[i] in job.departing && job.seed in known
  {
    hide Aimed, Pending, NoneLeft, Throughout, Stays, Knows;
    KnowsAt(masters, known, job.departing, job.seed);
  }

  lemma ListedSmooth(
    nodes: seq<NodeInfo>, known: seq<NodeId>, c: State, seed: NodeId, t: NodeId, job: Job)
    requires ListsSlots(nodes, known, c, seed) && Smooth(c, known, t, job)
    ensures Smooth(c, Primaries(nodes), t, job) && FindNode(nodes, t).Some?
    ensures Roster(c, known) && t in known && Calm(c, job)
  {
    hide ListsSlots, Primaries, FindNode, Calm, Roster;
    ListedRoster(nodes, known, c, seed);
    ListedSlots(nodes, known, c, seed, t);
  }

  lemma KeptParts(
    c0: State, c: State, trace: seq<State>, since: nat, shards0: set<nat>, shards: set<nat>, desired: nat,
    primary: map<nat, NodeId>, masters: seq<NodeId>, known: seq<NodeId>, t: NodeId, job: Job)
    requires Kept(c0, c, trace, since, shards0, shards, desired, primary, masters, known, t, job)
    ensures Departs(shards, desired, primary, known, job.departing) && Knows(masters, known, job.departing)
    ensures shards <= shards0 && (forall i | i in shards0 && i < desired :: i in shards)
    ensures since <= |trace| && Throughout(c0, trace, since, c, Aimed(c0, t, job), job)
    ensures Pending(c0, t, job, shards0, desired, primary) ==> Pending(c, t, job, shards, desired, primary)
    ensures Stays(c0, c, job.departing)
    ensures NoneLeft(c0, shards0, desired, primary, job.departing) ==>
              NoneLeft(c, shards, desired, primary, job.departing)
  {
    hide Departs, Aimed, Pending, NoneLeft, Throughout, Stays, Knows;
  }

  // ---- how many passes ----

  /** A shard beyond the declared ones is left. */
  ghost predicate Leaving(shards: set<nat>, desired: nat) {
    exists i :: i in shards && i >= desired
  }

  /** The batches each departing shard still has to be drained of. */
  ghost function ShardLoads(
    c: State, seed: NodeId, shards: set<nat>, desired: nat, primary: map<nat, NodeId>): map<nat, nat>
  {
    map i | i in shards && i >= desired && i in primary :: Departure.Batches(|Under(c, seed, primary[i])|)
  }

  ghost function BatchesLeft(
    c: State, seed: NodeId, shards: set<nat>, desired: nat, primary: map<nat, NodeId>): nat
  {
    SumLoads(ShardLoads(c, seed, shards, desired, primary))
  }

  lemma UnderAfter(
    c0: State, c: State, batch: set<int>, deleted: set<NodeId>, t: NodeId, job: Job, d: NodeId)
    requires Handed(c0, c, batch, deleted, t, job) && job.seed !in deleted && d != t
    requires forall s | s in c0 :: job.seed in c0[s]
    ensures Under(c, job.seed, d) == Under(c0, job.seed, d) - batch
  {
    forall s
      ensures s in Under(c, job.seed, d) <==> s in Under(c0, job.seed, d) && s !in batch
    {
      if s in c0 {
        assert job.seed in c0[s] && job.seed in c[s];
        assert s in batch ==> c[s][job.seed].owner == t;
      }
    }
  }

  lemma BatchIsSmaller(all: set<int>, batch: set<int>)
    requires batch <= all && |batch| == Batch(|all|) && all != {}
    ensures Departure.Batches(|all|) >= 1 && Departure.Batches(|all - batch|) == Departure.Batches(|all|) - 1
  {
    hide Departure.Batches, Batch;
    assert |all - batch| == |all| - |batch|;
    Departure.OneBatchLess(|all|);
  }

  lemma OneLoadLess(a: map<nat, nat>, b: map<nat, nat>, gone: set<nat>, i: nat)
    requires i in a && i !in gone && a[i] >= 1 && gone <= a.Keys && (forall g | g in gone :: a[g] == 0)
    requires b.Keys == a.Keys - gone && (forall j | j in b :: b[j] == if j == i then a[j] - 1 else a[j])
    ensures SumLoads(a) >= 1 && SumLoads(b) == SumLoads(a) - 1
  {
    hide SumLoads;
    SumOfSubmap(a - gone, a);
    SumLoadsSplit(a - gone, i);
    SumLoadsSplit(b, i);
    assert a - gone - {i} == b - {i};
  }

  lemma SeedStays(
    gone: set<nat>, shards: set<nat>, desired: nat, primary: map<nat, NodeId>, known: seq<NodeId>, job: Job)
    requires Departs(shards, desired, primary, known, job.departing) && job.seed !in job.departing
    requires gone <= shards && forall i | i in gone :: i >= desired
    ensures job.seed !in PrimariesOf(gone, primary)
  {
  }

  lemma LoadsAfter(
    c0: State, c: State, shards: set<nat>, desired: nat, primary: map<nat, NodeId>, known: seq<NodeId>, t: NodeId,
    job: Job, gone: set<nat>, batch: set<int>, j: nat)
    requires Handed(c0, c, batch, PrimariesOf(gone, primary), t, job) && Roster(c0, known) && job.seed in known
    requires Departs(shards, desired, primary, known, job.departing) && j in shards && j >= desired
    requires job.seed !in PrimariesOf(gone, primary) && t !in job.departing
    ensures j in primary && Under(c, job.seed, primary[j]) == Under(c0, job.seed, primary[j]) - batch
  {
    hide Handed, Under;
    assert forall s | s in c0 :: job.seed in c0[s];
    UnderAfter(c0, c, batch, PrimariesOf(gone, primary), t, job, primary[j]);
  }

  /** Each pass without a fault takes one batch off what is left, or there was nothing left and now no shard is. */
  lemma PassCounts(
    c0: State, c: State, shards: set<nat>, left: set<nat>, desired: nat, primary: map<nat, NodeId>,
    known: seq<NodeId>, t: NodeId, job: Job, next: Option<nat>, batch: set<int>)
    requires PassDid(c0, c, shards, left, desired, primary, t, job, next, batch) && Smooth(c0, known, t, job)
    requires Departs(shards, desired, primary, known, job.departing) && job.seed in known
    requires job.seed !in job.departing && t !in job.departing
    ensures var work := BatchesLeft(c0, job.seed, shards, desired, primary);
            if next.Some? then
              && Leaving(left, desired) && work > 0
              && BatchesLeft(c, job.seed, left, desired, primary) == work - 1
            else !Leaving(left, desired) && work == 0
    ensures Leaving(left, desired) ==> Leaving(shards, desired)
  {
    var gone := Gone(shards, desired, next);
    SeedStays(gone, shards, desired, primary, known, job);
    assert Roster(c0, known);
    if next.Some? {
      assert next.value in left;
      BatchCounts(c0, c, shards, left, desired, primary, known, t, job, gone, next.value, batch);
    } else {
      var a, none: map<nat, nat> := ShardLoads(c0, job.seed, shards, desired, primary), map[];
      hide Roster, Handed, Under, Departs, SumLoads;
      forall j | j in a
        ensures a[j] == 0
      {
        assert j in gone;
        NoBatches();
      }
      SumOfSubmap(none, a);
      EmptySum(none);
    }
  }

  lemma BatchCounts(
    c0: State, c: State, shards: set<nat>, left: set<nat>, desired: nat, primary: map<nat, NodeId>,
    known: seq<NodeId>, t: NodeId, job: Job, gone: set<nat>, i: nat, batch: set<int>)
    requires Handed(c0, c, batch, PrimariesOf(gone, primary), t, job) && Roster(c0, known) && job.seed in known
    requires Departs(shards, desired, primary, known, job.departing) && t !in job.departing
    requires job.seed !in PrimariesOf(gone, primary) && left == shards - gone
    requires i in left && i >= desired && i in primary
    requires forall g | g in gone ::
               g in shards && g >= desired && g in primary && Under(c0, job.seed, primary[g]) == {}
    requires Took(c0, job.seed, primary[i], batch) && Under(c0, job.seed, primary[i]) != {}
    ensures var work := BatchesLeft(c0, job.seed, shards, desired, primary);
            work > 0 && BatchesLeft(c, job.seed, left, desired, primary) == work - 1
  {
    var a, b := ShardLoads(c0, job.seed, shards, desired, primary), ShardLoads(c, job.seed, left, desired, primary);
    hide Roster, Handed, Under, SumLoads, PrimariesOf, Departure.Batches, Batch;
    NoBatches();
    BatchIsSmaller(Under(c0, job.seed, primary[i]), batch);
    forall j | j in left && j >= desired
      ensures j in b && j in a && b[j] == if j == i then a[j] - 1 else a[j]
    {
      LoadsAfter(c0, c, shards, desired, primary, known, t, job, gone, batch, j);
      if j != i {
        assert primary[j] != primary[i];
        OtherShard(c0, job.seed, primary[i], primary[j], batch);
      }
    }
    assert forall g | g in gone :: a[g] == 0;
    OneLoadLess(a, b, gone, i);
  }

  lemma NoBatches()
    ensures Departure.Batches(0) == 0
  {
  }

  /** The slots of another master are not in the batch. */
  lemma OtherShard(c: State, seed: NodeId, d: NodeId, e: NodeId, batch: set<int>)
    requires d != e && batch <= Under(c, seed, d)
    ensures Under(c, seed, e) - batch == Under(c, seed, e)
  {
  }

  // ---- whole runs ----

  lemma FlowsOn(trace: seq<State>, i: nat, k: nat, mid: State, now: State, aimed: bool, job: Job)
    requires i <= k <= |trace| && FlowingThroughout(trace[..k], i, mid, job)
    requires Throughout(mid, trace, k, now, aimed, job)
    ensures FlowingThroughout(trace, i, now, job)
    ensures aimed && OnWayThroughout(trace[..k], i, mid, job) ==> OnWayThroughout(trace, i, now, job)
  {
    hide AllFlowing, AllOnWay;
    forall j | i <= j < k
      ensures trace[j] == trace[..k][j]
    {
    }
  }

  ghost predicate FlowingThroughout(trace: seq<State>, i: nat, now: State, job: Job) {
    AllFlowing(now, job) && forall j | i <= j < |trace| :: AllFlowing(trace[j], job)
  }

  ghost predicate OnWayThroughout(trace: seq<State>, i: nat, now: State, job: Job) {
    AllOnWay(now, job) && forall j | i <= j < |trace| :: AllOnWay(trace[j], job)
  }

  lemma OnWayStarts(trace: seq<State>, c: State, job: Job)
    ensures AllFlowing(c, job) ==> FlowingThroughout(trace, |trace|, c, job)
    ensures AllOnWay(c, job) ==> OnWayThroughout(trace, |trace|, c, job)
  {
  }

  /** The survivor is another one only after a pass that ended without error. */
  predicate Steady(survivors: seq<NodeId>, errs: seq<bool>) {
    |errs| <= |survivors| &&
    forall p | 0 < p < |survivors| && p <= |errs| && survivors[p] != survivors[p - 1] :: !errs[p - 1]
  }

  lemma SteadySoFar(survivors: seq<NodeId>, errs: seq<bool>, err: bool)
    requires |errs| < |survivors| && Steady(survivors, errs + [err])
    ensures Steady(survivors, errs)
    ensures |errs| > 0 && survivors[|errs|] != survivors[|errs| - 1] ==> !errs[|errs| - 1]
  {
    assert forall p | 0 <= p < |errs| :: (errs + [err])[p] == errs[p];
  }

  /** What holds between the passes of a steady run: the next pass may use the same survivor, and any survivor if the
      last pass ended without error. */
  ghost predicate Between(
    c: State, survivors: seq<NodeId>, errs: seq<bool>, job: Job,
    shards: set<nat>, desired: nat, primary: map<nat, NodeId>)
  {
    && |errs| <= |survivors|
    && (errs == [] || !errs[|errs| - 1] ==> Calm(c, job))
    && (errs != [] ==> Pending(c, survivors[|errs| - 1], job, shards, desired, primary))
  }

  lemma MayGoOn(
    c: State, survivors: seq<NodeId>, errs: seq<bool>, job: Job,
    shards: set<nat>, desired: nat, primary: map<nat, NodeId>)
    requires Between(c, survivors, errs, job, shards, desired, primary) && |errs| < |survivors|
    requires |errs| > 0 && survivors[|errs|] != survivors[|errs| - 1] ==> !errs[|errs| - 1]
    requires There(c, survivors[|errs|]) && survivors[|errs|] !in job.departing
    ensures Pending(c, survivors[|errs|], job, shards, desired, primary)
  {
    hide Pending, Calm;
    if errs == [] || !errs[|errs| - 1] {
      CalmIsPending(c, survivors[|errs|], job, shards, desired, primary);
    }
  }

  /** Pass after pass, each with its own survivor and stopping anywhere. At every state of the run the masters that
      are left hold every key of every slot with its value. If what was due at the start was at rest, and the survivor
      changes only after a pass that ended without error, every key is also where clients look for it, at every state.
      Once no departing shard is left, none of the departing masters is. */
  method ScaleInRun(
    sv: Servers, w: Workloads, desired: nat, primary: map<nat, NodeId>, masters: seq<NodeId>, seed: NodeId,
    survivors: seq<NodeId>, ghost job: Job)
    returns (errs: seq<bool>)
    requires job.seed == seed && seed in masters && seed !in job.departing
    requires Departs(w.shards, desired, primary, masters, job.departing)
    requires forall p | 0 <= p < |survivors| :: survivors[p] !in job.departing
    requires AllFlowing(sv.slots, job) && NoneLeft(sv.slots, w.shards, desired, primary, job.departing)
    modifies sv, w
    ensures old(sv.trace) <= sv.trace && w.shards <= old(w.shards) && |errs| == |survivors|
    ensures forall i | i in old(w.shards) && i < desired :: i in w.shards
    ensures FlowingThroughout(sv.trace, |old(sv.trace)|, sv.slots, job)
    ensures (Calm(old(sv.slots), job) && AllOnWay(old(sv.slots), job) && Steady(survivors, errs)
             && (forall p | 0 <= p < |survivors| :: There(old(sv.slots), survivors[p]))) ==>
              OnWayThroughout(sv.trace, |old(sv.trace)|, sv.slots, job)
    ensures (forall i | i in w.shards :: i < desired) ==>
              forall s, n | s in sv.slots && n in sv.slots[s] :: n !in job.departing
    ensures (sv.faults == old(sv.faults) && Calm(old(sv.slots), job) && Roster(old(sv.slots), masters)
             && (forall p | 0 <= p < |survivors| :: survivors[p] in masters) && Leaving(old(w.shards), desired)) ==>
              && (forall p | 0 <= p < |errs| :: !errs[p])
              && (Leaving(w.shards, desired) <==>
                    |survivors| <= BatchesLeft(old(sv.slots), job.seed, old(w.shards), desired, primary))
  {
    hide *;
    ghost var fine := Calm(sv.slots, job) && Roster(sv.slots, masters) && Leaving(w.shards, desired)
                      && forall p | 0 <= p < |survivors| :: survivors[p] in masters;
    ghost var work := BatchesLeft(sv.slots, job.seed, w.shards, desired, primary);
    var known := masters;
    KnowsAll(masters, job.departing);
    OnWayStarts(sv.trace, sv.slots, job);
    StaysNot(sv.slots, job.departing);
    ghost var calm := Calm(sv.slots, job) && AllOnWay(sv.slots, job)
                      && forall p | 0 <= p < |survivors| :: There(sv.slots, survivors[p]);
    errs := [];
    if calm {
      SteadyStarts(sv.slots, survivors, job, w.shards, desired, primary);
    }
    while |errs| < |survivors|
      invariant old(sv.trace) <= sv.trace && w.shards <= old(w.shards) && |errs| <= |survivors|
      invariant Departs(w.shards, desired, primary, known, job.departing) && sv.faults >= old(sv.faults)
      invariant Knows(masters, known, job.departing)
      invariant fine && sv.faults == old(sv.faults) ==>
                  && Calm(sv.slots, job) && Roster(sv.slots, known) && (forall p | 0 <= p < |errs| :: !errs[p])
                  && (Leaving(w.shards, desired) <==> |errs| <= work)
                  && (|errs| <= work ==>
                        BatchesLeft(sv.slots, job.seed, w.shards, desired, primary) == work - |errs|)
      invariant forall i | i in old(w.shards) && i < desired :: i in w.shards
      invariant FlowingThroughout(sv.trace, |old(sv.trace)|, sv.slots, job)
      invariant Stays(old(sv.slots), sv.slots, job.departing)
      invariant calm && Steady(survivors, errs) ==>
                  && OnWayThroughout(sv.trace, |old(sv.trace)|, sv.slots, job)
                  && Between(sv.slots, survivors, errs, job, w.shards, desired, primary)
      invariant NoneLeft(sv.slots, w.shards, desired, primary, job.departing)
    {
      ghost var now, before, left, t := sv.slots, sv.trace, w.shards, survivors[|errs|];
      KnowsAt(masters, known, job.departing, seed);
      KnowsAt(masters, known, job.departing, t);
      SmoothIs(now, known, t, job);
      ghost var aimed := Aimed(now, t, job);
      var err, rest, next, batch := ScaleInPass(sv, w, desired, primary, known, seed, survivors[|errs|], job);
      KeptParts(now, sv.slots, sv.trace, |before|, left, w.shards, desired, primary, known, rest, t, job);
      if fine && sv.faults == old(sv.faults) {
        PassCounts(now, sv.slots, left, w.shards, desired, primary, known, t, job, next, batch);
      }
      KnowsMore(masters, known, rest, job.departing);
      known := rest;
      assert sv.trace[..|before|] == before;
      FlowsOn(sv.trace, |old(sv.trace)|, |before|, now, sv.slots, aimed, job);
      SmoothIs(sv.slots, known, t, job);
      StaysOn(old(sv.slots), now, sv.slots, job.departing);
      if calm && Steady(survivors, errs + [err]) {
        SteadySoFar(survivors, errs, err);
        StaysThere(old(sv.slots), now, job.departing, t);
        MayGoOn(now, survivors, errs, job, left, desired, primary);
        PendingAims(now, t, job, left, desired, primary);
        BetweenNext(sv.slots, survivors, errs, err, job, w.shards, desired, primary);
      }
      errs := errs + [err];
    }
    AllGone(sv.slots, w.shards, desired, primary, job.departing);
  }

  lemma SteadyStarts(
    c: State, survivors: seq<NodeId>, job: Job, shards: set<nat>, desired: nat, primary: map<nat, NodeId>)
    requires Calm(c, job)
    ensures Between(c, survivors, [], job, shards, desired, primary)
  {
  }

  lemma BetweenNext(
    c: State, survivors: seq<NodeId>, errs: seq<bool>, err: bool, job: Job,
    shards: set<nat>, desired: nat, primary: map<nat, NodeId>)
    requires |errs| < |survivors| && Pending(c, survivors[|errs|], job, shards, desired, primary)
    requires !err ==> Calm(c, job)
    ensures Between(c, survivors, errs + [err], job, shards, desired, primary)
  {
    hide Pending, Calm;
  }

  lemma AllGone(c: State, shards: set<nat>, desired: nat, primary: map<nat, NodeId>, departing: set<NodeId>)
    requires NoneLeft(c, shards, desired, primary, departing)
    ensures (forall i | i in shards :: i < desired) ==> forall s, n | s in c && n in c[s] :: n !in departing
  {
  }

  /** A cluster at rest is where such a run may start, whichever masters depart. */
  lemma RestIsStart(c: State, home: map<int, NodeId>, job: Job)
    requires c.Keys == home.Keys == job.data.Keys
    requires forall s | s in c :: job.seed in c[s] && RestsOn(c[s], home[s], job.data[s])
    ensures AllFlowing(c, job) && AllOnWay(c, job) && Calm(c, job)
  {
    hide RestsOn, Flowing;
    forall s | s in c
      ensures Flowing(c[s], job.data[s], job) && c[s][job.seed].owner == home[s]
    {
      SlotAtRest(c[s], home[s], job.data[s], job);
    }
  }

  lemma SlotAtRest(col: Column, o: NodeId, data: Keyspace, job: Job)
    requires job.seed in col && RestsOn(col, o, data)
    ensures Flowing(col, data, job) && col[job.seed].owner == o
  {
    forall k | k in data
      ensures HeldIn(col, k)
    {
      assert k in col[o].keys;
    }
  }

  lemma ChangedStart(col: Column)
    requires col == map["d" := View("d", None, Some("t"), map[]), "t" := View("d", Some("d"), None, map["k" := "v"]),
                        "u" := View("d", None, None, map[])]
    ensures OnCourse(col, "u", "d", "t", map["k" := "v"])
  {
    assert Visible(col, "d", "t") == map["k" := "v"];
  }

  /** A pass that stopped after the key had moved to "t", and then one that drains into "u": the source has no key left,
      so that the slot is handed to "u" at once, and nobody finds the key any more. */
  lemma ChangedSurvivorHides(at: NodeId)
    requires at in {"d", "t", "u"}
    ensures var col: Column := map["d" := View("d", None, Some("t"), map[]),
                                   "t" := View("d", Some("d"), None, map["k" := "v"]),
                                   "u" := View("d", None, None, map[])];
            var after := AssignOn(col, ["d", "t", "u"], "u");
            && OnCourse(col, "u", "d", "t", map["k" := "v"]) && col["d"].keys == map[]
            && Route(after, at, "k", false, 4) == Some("u") && "k" !in after["u"].keys
  {
    var col: Column := map["d" := View("d", None, Some("t"), map[]),
                           "t" := View("d", Some("d"), None, map["k" := "v"]), "u" := View("d", None, None, map[])];
    var ms := ["d", "t", "u"];
    assert ms[0] == "d" && ms[1] == "t" && ms[2] == "u";
    var after := AssignOn(col, ms, "u");
    assert after.Keys == {"d", "t", "u"} && after["u"] == View("u", None, None, map[]);
    assert after["d"].owner == "u" && after["t"].owner == "u";
    ChangedStart(col);
    hide AssignOn, OnCourse;
    assert Route(after, "u", "k", false, 3) == Some("u") && Route(after, "u", "k", false, 4) == Some("u");
  }
}
