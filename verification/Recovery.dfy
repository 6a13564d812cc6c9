/** What becomes of an interrupted `MoveSlots`: calling it again, or repairing what it left. */
module Recovery {
  import opened Wrappers
  import opened Cluster
  import opened SlotState
  import opened Masters
  import opened Mover
  import opened Repair

  // ---- moving again ----

  /** Both nodes are listed, so that a move of n > 0 slots gets to work. */
  predicate ListsBoth(nodes: seq<NodeInfo>, from: NodeId, to: NodeId) {
    FindNode(nodes, from).Some? && FindNode(nodes, to).Some?
  }

  /** The slots a call was to move, and how many of them it moved. */
  function MovedSlots(nodes: seq<NodeInfo>, from: NodeId, n: nat, moved: nat): seq<int>
    requires FindNode(nodes, from).Some?
  {
    var list := SlotsToMove(FindNode(nodes, from).value, n);
    if moved <= |list| then list[..moved] else list
  }

  lemma ResumedColumn(
    c0: State, c1: State, c2: State, list1: seq<int>, list2: seq<int>, ms: seq<NodeId>, src: NodeId, dst: NodeId,
    t: int)
    requires AllWithin(c0, c1, list1, src, dst) && c2.Keys == c1.Keys
    requires AllHandedOver(c1, c2, list2, ms, src, dst)
    requires t in list2 && t in c0 && InFlight(c0[t], src, dst) && forall n | n in c0[t] :: n in ms
    ensures c2.Keys == c0.Keys && c2[t] == HandedOver(c0[t], src, dst)
  {
    hide HandedOver, InFlight;
    AdvancesNot(c0[t], src, dst);
    assert Advances(c0[t], c1[t], src, dst);
    ResumeIsConfluent(c0[t], c1[t], src, dst);
  }

  lemma StillMovable(
    c0: State, c: State, touched: seq<int>, list: seq<int>, nodes: seq<NodeInfo>, src: NodeId, dst: NodeId)
    requires AllWithin(c0, c, touched, src, dst) && Movable(c0, list, nodes, src, dst)
    ensures Movable(c, list, nodes, src, dst)
  {
    hide InFlight, SameVisible, Backed;
    forall t | t in list
      ensures t in c && InFlight(c[t], src, dst) && HasMasters(c[t], nodes)
    {
      AdvancesNot(c0[t], src, dst);
      assert Advances(c0[t], c[t], src, dst);
    }
  }

  /** Calling the mover again after it stopped anywhere. The slots the second call moves end exactly as if the first
      had never been made: owners, markers and keys. */
  method MoveAgain(
    sv: Servers, first: seq<NodeInfo>, again: seq<NodeInfo>, from: NodeId, to: NodeId, n: nat)
    returns (moved: nat, err: bool)
    requires ListsBoth(first, from, to) && ListsBoth(again, from, to) && n > 0
    modifies sv
    ensures sv.slots.Keys == old(sv.slots).Keys && moved <= |SlotsToMove(FindNode(again, from).value, n)|
    ensures Distinct(SlotsToMove(FindNode(again, from).value, n)) ==>
              forall t | t in MovedSlots(again, from, n, moved) && t in old(sv.slots)
                         && InFlight(old(sv.slots)[t], from, to)
                         && (forall m | m in old(sv.slots)[t] :: m in Primaries(again)) ::
                sv.slots[t] == HandedOver(old(sv.slots)[t], from, to)
    ensures (sv.faults == old(sv.faults)
             && Movable(old(sv.slots), SlotsToMove(FindNode(again, from).value, n), again, from, to)) ==>
              !err && moved == |SlotsToMove(FindNode(again, from).value, n)|
  {
    hide AllMoved, AlwaysReadable, AllInterrupted, SlotsToMove, FindNode, Primaries, HandedOver, Advances;
    var moved1, err1 := MoveSlots(sv, Some(first), from, to, n);
    ghost var list1 := SlotsToMove(FindNode(first, from).value, n);
    ghost var touched := list1[..if err1 then moved1 + 1 else moved1];
    ghost var c1 := sv.slots;
    ghost var list2 := SlotsToMove(FindNode(again, from).value, n);
    if Movable(old(sv.slots), list2, again, from, to) {
      StillMovable(old(sv.slots), c1, touched, list2, again, from, to);
    }
    moved, err := MoveSlots(sv, Some(again), from, to, n);
    if Distinct(list2) {
      forall t | t in list2[..moved] && t in old(sv.slots) && InFlight(old(sv.slots)[t], from, to)
                 && (forall m | m in old(sv.slots)[t] :: m in Primaries(again))
        ensures sv.slots[t] == HandedOver(old(sv.slots)[t], from, to)
      {
        ResumedColumn(old(sv.slots), c1, sv.slots, touched, list2[..moved], Primaries(again), from, to, t);
      }
    }
  }

  // ---- repairing ----

  /** No key is on both masters of the pair. */
  ghost predicate Apart(col: Column, src: NodeId, dst: NodeId) {
    src in col && dst in col && forall k :: !(k in col[src].keys && k in col[dst].keys)
  }

  /** The state a move stopped in can be repaired towards the owner the seed names: the target in any case, the source
      only if no key has reached the target. */
  ghost predicate Recoverable(stopped: Column, o: NodeId, src: NodeId, dst: NodeId) {
    src in stopped && dst in stopped && (o == dst || stopped[dst].keys == map[])
  }

  /** What becomes of a slot that was on its way, stopped as `stopped`, and is `open` or not when the repair starts
      from a seed that names `o`. It comes to rest on `o` exactly if it was open and `Recoverable`, or not open and
      all masters named `o`; then `o` has all its keys. It has no marker in any case, and the pair together still has
      exactly the keys clients saw. */
  ghost predicate Recovered(
    before: Column, stopped: Column, after: Column, open: bool, o: NodeId, src: NodeId, dst: NodeId)
    requires src in before && dst in before
  {
    var keys := Visible(before, src, dst);
    && after.Keys == before.Keys && !Marked(after) && Visible(after, src, dst) == keys
    && (Settled(after, o) <==>
          if open then Recoverable(stopped, o, src, dst) else forall n | n in stopped :: stopped[n].owner == o)
    && (Settled(after, o) ==> after[o].keys == keys)
    && (!open ==> after == stopped && (keys == map[] || Agreed(after, src, dst, keys)))
  }

  lemma RecoverableIff(col: Column, seed: NodeId, src: NodeId, dst: NodeId)
    requires InFlight(col, src, dst) && seed in col
    ensures col[seed].owner in {src, dst}
    ensures Repairable(col, col[seed].owner) <==> Recoverable(col, col[seed].owner, src, dst)
  {
    hide Repairable;
    if col[seed].owner == dst {
      RepairableAtTarget(col, seed, src, dst);
    } else {
      RepairableAtSource(col, src, dst);
    }
  }

  /** With no key on two masters, the keys held are the visible ones. */
  lemma HeldIsVisible(col: Column, after: Column, o: NodeId, src: NodeId, dst: NodeId)
    requires InFlight(col, src, dst) && Apart(col, src, dst) && o in after && HoldsAll(col, after, o)
    ensures after[o].keys == Visible(col, src, dst)
  {
    var keys, visible := after[o].keys, Visible(col, src, dst);
    forall k, v
      ensures Holds(col, k, v) <==> k in visible && visible[k] == v
    {
      if n :| HoldsAt(col, n, k, v) {
        assert n == src || n == dst;
      }
      if k in visible && visible[k] == v {
        assert HoldsAt(col, src, k, v) || HoldsAt(col, dst, k, v);
      }
    }
    forall k
      ensures k in keys <==> k in visible
      ensures k in keys && k in visible ==> keys[k] == visible[k]
    {
      if k in keys {
        assert HoldsAt(after, o, k, keys[k]);
      }
      if k in visible {
        assert HoldsAt(after, o, k, visible[k]);
      }
    }
  }

  lemma SharedApart(col: Column, src: NodeId, dst: NodeId)
    requires InFlight(col, src, dst) && NoneShared(col)
    ensures Apart(col, src, dst)
  {
    forall k
      ensures !(k in col[src].keys && k in col[dst].keys)
    {
      assert !Shared(col, k);
    }
  }

  /** A column at rest on either master of the pair shows what that one has. */
  lemma SettledVisible(col: Column, o: NodeId, src: NodeId, dst: NodeId)
    requires Settled(col, o) && o in {src, dst} && src in col && dst in col && src != dst
    ensures Visible(col, src, dst) == col[o].keys && !Marked(col)
  {
  }

  lemma AdvancedVisible(before: Column, after: Column, src: NodeId, dst: NodeId)
    requires Advances(before, after, src, dst) && src in before && dst in before
    ensures after.Keys == before.Keys && Visible(after, src, dst) == Visible(before, src, dst)
    ensures InFlight(before, src, dst) ==> InFlight(after, src, dst)
  {
  }

  lemma FixVisible(col: Column, ms: seq<NodeId>, o: NodeId, src: NodeId, dst: NodeId)
    requires src in col && dst in col
    ensures FixOn(col, ms, o).Keys == col.Keys && Visible(FixOn(col, ms, o), src, dst) == Visible(col, src, dst)
  {
  }

  /** A repaired slot came to rest with all its keys, or none of its keys has moved. */
  lemma RepairedVisible(col: Column, after: Column, nodes: seq<NodeInfo>, seed: NodeId, src: NodeId, dst: NodeId)
    requires InFlight(col, src, dst) && seed in col && ListsAll(nodes, col)
    requires SlotRepaired(col, after, nodes, col[seed].owner)
    ensures after.Keys == col.Keys && !Marked(after) && Visible(after, src, dst) == Visible(col, src, dst)
    ensures Settled(after, col[seed].owner) <==> Recoverable(col, col[seed].owner, src, dst)
    ensures Settled(after, col[seed].owner) ==> after[col[seed].owner].keys == Visible(col, src, dst)
  {
    var o := col[seed].owner;
    RecoverableIff(col, seed, src, dst);
    RepairableAtSource(col, src, dst);
    assert Repairable(col, o) ==> NoneShared(col);
    assert src in col && dst in col && src != dst;
    hide InFlight, Repairable, NoneShared, HoldsAll, ListsAll, Accepts, SameHeld, FixOn, Visible, Settled, Fetchable;
    LeavesUnmarked(col, after, o);
    assert !Marked(after) && after.Keys == col.Keys;
    hide Leaves, Marked;
    if Settled(after, o) {
      SharedApart(col, src, dst);
      HeldIsVisible(col, after, o, src, dst);
      SettledVisible(after, o, src, dst);
    } else {
      FixVisible(col, Primaries(nodes), o, src, dst);
    }
  }

  lemma OpenRecovered(
    before: Column, stopped: Column, after: Column, nodes: seq<NodeInfo>, seed: NodeId, src: NodeId, dst: NodeId)
    requires InFlight(before, src, dst) && Advances(before, stopped, src, dst) && seed in stopped
    requires ListsAll(nodes, stopped) && SlotRepaired(stopped, after, nodes, stopped[seed].owner)
    ensures Recovered(before, stopped, after, true, stopped[seed].owner, src, dst)
  {
    assert src in before && dst in before;
    hide InFlight, Advances, SlotRepaired, ListsAll, Marked, Visible, Settled;
    AdvancedVisible(before, stopped, src, dst);
    RepairedVisible(stopped, after, nodes, seed, src, dst);
  }

  /** A slot the sweep over the pair does not find has no marker. */
  lemma ClosedIsUnmarked(c: State, nodes: seq<NodeInfo>, src: NodeId, dst: NodeId, t: int)
    requires t in c && InFlight(c[t], src, dst) && Asked(nodes, src) && Asked(nodes, dst) && t !in OpenSlots(c, nodes)
    ensures !Marked(c[t])
  {
    hide Reachable, OpenSlots;
    OpenSlotsIs(c, nodes);
    assert t !in OpenAt(c, src) && t !in OpenAt(c, dst);
  }

  /** The slot `t` as the repair meets it: on its way before the move, every master listed with an address and the
      pair answering, and the listing showing the owner the seed names. */
  ghost predicate Meets(
    c: State, stopped: State, nodes: seq<NodeInfo>, seed: NodeId, src: NodeId, dst: NodeId, t: int)
  {
    && t in c && t in stopped && InFlight(c[t], src, dst) && ListsAll(nodes, stopped[t])
    && Asked(nodes, src) && Asked(nodes, dst)
    && seed in stopped[t] && ShowsOwner(nodes, stopped, seed, t)
  }

  lemma SlotRecovered(
    c: State, stopped: State, after: State, touched: seq<int>, nodes: seq<NodeInfo>, seed: NodeId,
    src: NodeId, dst: NodeId, t: int)
    requires AllWithin(c, stopped, touched, src, dst) && Meets(c, stopped, nodes, seed, src, dst, t)
    requires Repaired(stopped, after, nodes, Repairing(OpenSlots(stopped, nodes), nodes), true)
    ensures t in after
    ensures Recovered(c[t], stopped[t], after[t], t in OpenSlots(stopped, nodes), stopped[t][seed].owner, src, dst)
  {
    hide SlotRepaired, AllHarmless, ListsAll, Asked, HasOwner, OwnerID, OpenSlots, Agreed, Settled, Marked, Keeps;
    hide ShowsOwner;
    RepairedKeys(stopped, after, nodes, Repairing(OpenSlots(stopped, nodes), nodes), true);
    AdvancesNot(c[t], src, dst);
    assert Advances(c[t], stopped[t], src, dst);
    assert stopped[t][seed].owner in stopped[t];
    OwnerIsSeeds(nodes, stopped, seed, t);
    if t in OpenSlots(stopped, nodes) {
      OpenRecovered(c[t], stopped[t], after[t], nodes, seed, src, dst);
    } else {
      AdvancedVisible(c[t], stopped[t], src, dst);
      ClosedIsUnmarked(stopped, nodes, src, dst, t);
      UnmarkedSettledIff(stopped[t], src, dst, stopped[t][seed].owner);
      if Visible(c[t], src, dst) != map[] {
        HalfMovesShow(c, stopped, touched, src, dst, nodes, t);
      }
    }
  }

  /** A move that stops anywhere, then a repair in which nothing fails: what became of every slot that was on its way
      is said by `Recovered`. */
  method MoveThenRepair(
    sv: Servers, listing: Option<seq<NodeInfo>>, from: NodeId, to: NodeId, n: int, nodes: seq<NodeInfo>,
    ghost seed: NodeId)
    returns (moved: nat, repaired: nat, ghost stopped: State, ghost clean: bool)
    modifies sv
    ensures stopped.Keys == sv.slots.Keys == old(sv.slots).Keys
    ensures clean ==> forall t | Meets(old(sv.slots), stopped, nodes, seed, from, to, t) ::
              Recovered(old(sv.slots)[t], stopped[t], sv.slots[t],
                        t in OpenSlots(stopped, nodes), stopped[t][seed].owner, from, to)
    ensures forall t | t in stopped :: SameHeld(stopped[t], sv.slots[t])
    ensures sv.faults >= old(sv.faults) && (sv.faults == old(sv.faults) ==> clean)
  {
    var err;
    moved, err := MoveSlots(sv, listing, from, to, n);
    stopped := sv.slots;
    ghost var f := sv.faults;
    ghost var touched: seq<int> :=
      TouchedBy(old(sv.slots), sv.slots, sv.trace, |old(sv.trace)|, listing, from, to, n, moved, err);
    var err2;
    ghost var done;
    repaired, err2, done := RepairSlots(sv, Some(nodes));
    clean := sv.faults == f;
    hide *;
    RepairedKeys(stopped, sv.slots, nodes, done, false);
    RepairedHolds(stopped, sv.slots, nodes, done);
    if clean {
      forall t | Meets(old(sv.slots), stopped, nodes, seed, from, to, t)
        ensures t in old(sv.slots) && t in stopped && from in old(sv.slots)[t] && to in old(sv.slots)[t]
        ensures seed in stopped[t]
        ensures Recovered(old(sv.slots)[t], stopped[t], sv.slots[t],
                          t in OpenSlots(stopped, nodes), stopped[t][seed].owner, from, to)
      {
        SlotRecovered(old(sv.slots), stopped, sv.slots, touched, nodes, seed, from, to, t);
        MeetsIs(old(sv.slots), stopped, nodes, seed, from, to, t);
      }
    }
  }

  lemma MeetsIs(c: State, stopped: State, nodes: seq<NodeInfo>, seed: NodeId, src: NodeId, dst: NodeId, t: int)
    requires Meets(c, stopped, nodes, seed, src, dst, t)
    ensures t in c && t in stopped && src in c[t] && dst in c[t] && seed in stopped[t]
  {
  }

  lemma RepairedHolds(c0: State, c: State, nodes: seq<NodeInfo>, done: set<int>)
    requires Repaired(c0, c, nodes, done, false)
    ensures c.Keys == c0.Keys && forall t | t in c0 :: SameHeld(c0[t], c[t])
  {
    hide SameHeld;
  }

  /** The slots a call of MoveSlots touched, whatever it returned. */
  lemma TouchedBy(
    c0: State, c: State, trace: seq<State>, i: nat, listing: Option<seq<NodeInfo>>, from: NodeId, to: NodeId,
    n: int, moved: nat, err: bool) returns (touched: seq<int>)
    requires n <= 0 || listing.None? || !ListsBoth(listing.value, from, to) ==> c == c0
    requires n > 0 && listing.Some? && ListsBoth(listing.value, from, to) ==>
               var list := SlotsToMove(FindNode(listing.value, from).value, n);
               && moved <= |list| && (!err <==> moved == |list|)
               && Run(c0, c, trace, i, list, moved, if err then moved + 1 else moved,
                      Primaries(listing.value), from, to)
    ensures AllWithin(c0, c, touched, from, to)
  {
    hide Advances, SlotsToMove, FindNode, Primaries, AllMoved, AllHandedOver, AlwaysReadable, AllInterrupted;
    touched := [];
    if n > 0 && listing.Some? && ListsBoth(listing.value, from, to) {
      touched := SlotsToMove(FindNode(listing.value, from).value, n)[..if err then moved + 1 else moved];
    }
  }

  // ---- moving again after a repair ----

  lemma MovedAgain(before: Column, stopped: Column, mid: Column, after: Column, open: bool, o: NodeId,
                   ms: seq<NodeId>, src: NodeId, dst: NodeId)
    requires src in before && dst in before && Recovered(before, stopped, mid, open, o, src, dst)
    requires Moved(mid, after, ms, src, dst)
    ensures Moved(before, after, ms, src, dst)
  {
    hide Settled, Recoverable, Agreed, Marked, Visible;
  }

  /** Keys a repair left out of reach come back with the next move: whatever the first call and the repair made of a
      slot, once a later call has moved it the target holds exactly what clients saw before the first. */
  method MoveRepairMove(
    sv: Servers, listing: Option<seq<NodeInfo>>, nodes: seq<NodeInfo>, again: seq<NodeInfo>,
    from: NodeId, to: NodeId, n: nat, ghost seed: NodeId)
    returns (moved: nat, err: bool, ghost stopped: State, ghost clean: bool)
    requires ListsBoth(again, from, to) && n > 0
    modifies sv
    ensures sv.slots.Keys == old(sv.slots).Keys && moved <= |SlotsToMove(FindNode(again, from).value, n)|
    ensures clean ==>
              forall t | t in MovedSlots(again, from, n, moved)
                         && Meets(old(sv.slots), stopped, nodes, seed, from, to, t) ::
                Moved(old(sv.slots)[t], sv.slots[t], Primaries(again), from, to)
    ensures sv.faults >= old(sv.faults) && (sv.faults == old(sv.faults) ==> clean)
  {
    hide TraceAllWithin, AllHandedOver, AlwaysReadable, AllInterrupted, SlotsToMove, FindNode, Primaries, Moved;
    hide Advances, Meets, Recovered, OpenSlots, SameHeld;
    var _, _, stopped1, clean1 := MoveThenRepair(sv, listing, from, to, n, nodes, seed);
    stopped, clean := stopped1, clean1;
    ghost var mid := sv.slots;
    moved, err := MoveSlots(sv, Some(again), from, to, n);
    ghost var list := SlotsToMove(FindNode(again, from).value, n);
    if clean {
      forall t | t in list[..moved] && Meets(old(sv.slots), stopped, nodes, seed, from, to, t)
        ensures t in old(sv.slots) && Moved(old(sv.slots)[t], sv.slots[t], Primaries(again), from, to)
      {
        MeetsIs(old(sv.slots), stopped, nodes, seed, from, to, t);
        assert Moved(mid[t], sv.slots[t], Primaries(again), from, to);
        MovedAgain(old(sv.slots)[t], stopped[t], mid[t], sv.slots[t],
                   t in OpenSlots(stopped, nodes), stopped[t][seed].owner, Primaries(again), from, to);
      }
    }
  }
}
