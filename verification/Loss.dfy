/** Keys that go with a deleted shard: those an interrupted scale-out left on a master that is taken away again. */
module Loss {
  import opened Wrappers
  import opened Cluster
  import opened SlotState
  import opened Masters
  import opened Mover
  import opened Repair
  import opened Recovery
  import opened Drain

  /** A departing master that owns no slot may still hold keys of one on its way to it, left by an interrupted
      scale-out. Deleting it loses none exactly when each of them is still on the source. */
  lemma StrayIsLostIff(col: Column, src: NodeId, d: NodeId)
    requires InFlight(col, src, d)
    ensures (forall k | k in Visible(col, src, d) :: HeldIn(col - {d}, k)) <==>
            forall k | k in col[d].keys :: k in col[src].keys
  {
    LostIff(col, col, src, d);
  }

  lemma LostIff(col: Column, after: Column, src: NodeId, d: NodeId)
    requires InFlight(col, src, d) && after.Keys == col.Keys && forall n | n in col :: after[n].keys == col[n].keys
    ensures (forall k | k in Visible(col, src, d) :: HeldIn(after - {d}, k)) <==>
            forall k | k in col[d].keys :: k in col[src].keys
  {
    var rest := after - {d};
    forall k
      ensures HeldIn(rest, k) <==> k in col[src].keys
    {
      if k in col[src].keys {
        assert src in rest && k in rest[src].keys;
      }
    }
  }

  /** A repair towards the source in between saves none of them: the same keys are lost on the same condition. With no
      key on both masters that is the condition under which the repair succeeds. */
  lemma RepairSavesNone(col: Column, after: Column, nodes: seq<NodeInfo>, src: NodeId, d: NodeId)
    requires InFlight(col, src, d) && ListsAll(nodes, col) && SlotRepaired(col, after, nodes, src)
    ensures (forall k | k in Visible(col, src, d) :: HeldIn(after - {d}, k)) <==>
            forall k | k in col[d].keys :: k in col[src].keys
    ensures Apart(col, src, d) ==>
              ((forall k | k in Visible(col, src, d) :: HeldIn(after - {d}, k)) <==> Recoverable(col, src, src, d))
  {
    hide ListsAll, HoldsAll, Leaves, SameHeld, Repairable;
    RepairableAtSource(col, src, d);
    if col[d].keys == map[] {
      SettledKeeps(col, after, src, d);
    } else {
      assert after == FixOn(col, Primaries(nodes), src);
      LostIff(col, after, src, d);
    }
    assert col[d].keys != map[] ==> exists k :: k in col[d].keys;
  }

  lemma SettledKeeps(col: Column, after: Column, src: NodeId, d: NodeId)
    requires InFlight(col, src, d) && Settled(after, src) && HoldsAll(col, after, src)
    ensures forall k | k in Visible(col, src, d) :: HeldIn(after - {d}, k)
  {
    forall k | k in Visible(col, src, d)
      ensures HeldIn(after - {d}, k)
    {
      var v := Visible(col, src, d)[k];
      assert HoldsAt(col, src, k, v) || HoldsAt(col, d, k, v);
      assert HoldsAt(after, src, k, v);
      assert src in after - {d} && k in (after - {d})[src].keys;
    }
  }

  /** The same of any slot, whoever marks it: if no key is on two masters, deleting `d` after a repair towards `o` loses
      no key exactly if the repair could fetch all that `d` had. */
  lemma DeletedAfterRepair(col: Column, after: Column, nodes: seq<NodeInfo>, o: NodeId, d: NodeId)
    requires o in col && d in col && d != o && NoneShared(col) && ListsAll(nodes, col)
    requires SlotRepaired(col, after, nodes, o)
    ensures (forall k | HeldIn(col, k) :: HeldIn(after - {d}, k)) <==> Fetchable(col, d, o)
  {
    hide ListsAll, HoldsAll, Repairable, Settled, FixOn, Fixed, Accepts, Fetchable, PartOf;
    forall k
      ensures HeldIn(col, k) <==> HeldIn(after, k)
    {
      HeldMeans(col, k);
      HeldMeans(after, k);
    }
    if after[d].keys == map[] {
      forall k | HeldIn(after, k)
        ensures HeldIn(after - {d}, k)
      {
        var n :| n in after && k in after[n].keys;
        assert n in after - {d};
      }
    } else {
      var k :| k in after[d].keys;
      assert HeldIn(after, k) && !Shared(after, k);
      assert !HeldIn(after - {d}, k);
    }
  }

  lemma HeldMeans(col: Column, k: string)
    ensures HeldIn(col, k) <==> exists v :: Holds(col, k, v)
  {
    if n :| n in col && k in col[n].keys {
      assert HoldsAt(col, n, k, col[n].keys[k]);
      assert Holds(col, k, col[n].keys[k]);
    }
  }

  /** A slot whose one key has reached the new master "d". */
  function StrayColumn(): Column {
    map["a" := View("a", None, Some("d"), map[]), "d" := View("a", Some("a"), None, map["k" := "v"])]
  }

  /** When the spec takes that master away again, the seed names it as no slot's owner, so that the pass deletes it, and
      the key is gone. */
  lemma StrayIsLost()
    ensures InFlight(StrayColumn(), "a", "d") && "k" in Visible(StrayColumn(), "a", "d")
    ensures forall s :: !SeedSees(map[0 := StrayColumn()], "a", s, "d")
    ensures !HeldIn(Without(map[0 := StrayColumn()], "d")[0], "k")
  {
    assert Without(map[0 := StrayColumn()], "d")[0] == map["a" := View("a", None, Some("d"), map[])];
  }

  lemma StrayFixed(ms: seq<NodeId>)
    requires "a" in ms && "d" in ms
    ensures FixOn(StrayColumn(), ms, "a") ==
            map["a" := View("a", None, None, map[]), "d" := View("a", None, None, map["k" := "v"])]
    ensures !Accepts(StrayColumn(), "a")
  {
  }

  lemma FixedStrayIsLost(after: Column)
    requires after == map["a" := View("a", None, None, map[]), "d" := View("a", None, None, map["k" := "v"])]
    ensures !Marked(after) && (forall s :: !SeedSees(map[0 := after], "a", s, "d"))
    ensures !HeldIn(Without(map[0 := after], "d")[0], "k")
  {
    assert Without(map[0 := after], "d")[0] == map["a" := View("a", None, None, map[])];
  }

  /** The same slot repaired first: the source takes no key in, the new master is told and unmarked, and deleted with
      the key all the same. */
  lemma RepairedStrayIsLost(nodes: seq<NodeInfo>, after: Column)
    requires ListsAll(nodes, StrayColumn()) && SlotRepaired(StrayColumn(), after, nodes, "a")
    ensures !Marked(after) && (forall s :: !SeedSees(map[0 := after], "a", s, "d"))
    ensures !HeldIn(Without(map[0 := after], "d")[0], "k")
  {
    assert "a" in StrayColumn() && "d" in StrayColumn();
    hide ListsAll, HoldsAll, Leaves, SameHeld, Repairable, Settled, Primaries, FixOn, Accepts, StrayColumn, Marked;
    hide SeedSees, HeldIn, Without;
    ListsAllIds(nodes, StrayColumn(), "a");
    StrayFixed(Primaries(nodes));
    FixedStrayIsLost(after);
  }
}
