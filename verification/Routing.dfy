/** How clients reach a slot while it moves: MOVED and ASK redirection over a column, and when it
    gets a read or a write to the right copy. */
module Routing {
  import opened Wrappers
  import opened SlotState

  /** The master that finally executes a command on key `k` first sent to `at`, following at most
      `hops` replies: an owner that migrates the slot away and lacks the key answers ASK, an importing
      master serves a client that was asked, anyone else answers MOVED. */
  function Route(col: Column, at: NodeId, k: string, asking: bool, hops: nat): Option<NodeId>
    decreases hops
  {
    if hops == 0 || at !in col then None
    else
      var v := col[at];
      if v.owner == at then
        if v.migrating.Some? && k !in v.keys then Route(col, v.migrating.value, k, true, hops - 1) else Some(at)
      else if asking && v.importing.Some? then Some(at)
      else Route(col, v.owner, k, false, hops - 1)
  }

  /** `m` and `m'` hold the same value for `k`, or both nothing. */
  predicate SameAt(m: Keyspace, m': Keyspace, k: string) {
    (k in m <==> k in m') && (k in m ==> m[k] == m'[k])
  }

  /** Four replies bring a reader from any master to the visible value of any key. */
  ghost predicate ReadsResolve(col: Column, src: NodeId, dst: NodeId)
    requires src in col && dst in col
  {
    forall at, k | at in col ::
      var n := Route(col, at, k, false, 4);
      n.Some? && n.value in col && SameAt(col[n.value].keys, Visible(col, src, dst), k)
  }

  /** Master `n` executes commands on `k`: the source as owner (with the key, or not migrating), or the
      target, as owner or because the source asks for it. */
  predicate Serves(col: Column, src: NodeId, dst: NodeId, k: string, n: Option<NodeId>)
    requires src in col && dst in col
  {
    || (n == Some(src) && col[src].owner == src && (col[src].migrating == None || k in col[src].keys))
    || (n == Some(dst) && k !in col[src].keys
        && (col[dst].owner == dst || (col[src].owner == src && col[src].migrating == Some(dst))))
  }

  lemma FromTarget(col: Column, src: NodeId, dst: NodeId, k: string, hops: nat)
    requires InFlight(col, src, dst) && col[dst].owner == dst && hops >= 1
    ensures Serves(col, src, dst, k, Route(col, dst, k, false, hops))
  {
    assert col[src].keys == map[];
  }

  lemma FromSource(col: Column, src: NodeId, dst: NodeId, k: string, hops: nat)
    requires InFlight(col, src, dst) && !Limbo(col, src, dst) && hops >= 2
    ensures Serves(col, src, dst, k, Route(col, src, k, false, hops))
  {
    if col[src].owner == dst {
      FromTarget(col, src, dst, k, hops - 1);
    } else if col[src].migrating.Some? && k !in col[src].keys {
      assert Route(col, dst, k, true, hops - 1) == Some(dst);
    }
  }

  /** From any master a command reaches a master that serves the key. */
  lemma ReachesServer(col: Column, src: NodeId, dst: NodeId, at: NodeId, k: string, hops: nat)
    requires InFlight(col, src, dst) && !Limbo(col, src, dst) && at in col && hops >= 4
    ensures Serves(col, src, dst, k, Route(col, at, k, false, hops))
  {
    if at == src || (at == dst && col[dst].owner == dst) {
      if at == src { FromSource(col, src, dst, k, hops); } else { FromTarget(col, src, dst, k, hops); }
    } else if col[at].owner == src {
      FromSource(col, src, dst, k, hops - 1);
    } else if col[dst].owner == dst {
      FromTarget(col, src, dst, k, hops - 1);
    } else {
      assert Route(col, dst, k, false, hops - 1) == Route(col, src, k, false, hops - 2);
      FromSource(col, src, dst, k, hops - 2);
    }
  }

  /** Whoever serves a key has its visible value. */
  lemma ServerIsRight(col: Column, src: NodeId, dst: NodeId, k: string, n: Option<NodeId>)
    requires InFlight(col, src, dst) && Serves(col, src, dst, k, n)
    ensures n.Some? && n.value in col && SameAt(col[n.value].keys, Visible(col, src, dst), k)
  {
    if col[src].owner == src && col[src].migrating == None && n == Some(src) {
      assert col[dst].keys == map[];
    }
  }

  /** In limbo no number of redirects helps, from no master. */
  lemma {:induction false} LimboLoops(col: Column, src: NodeId, dst: NodeId, at: NodeId, k: string, hops: nat)
    requires InFlight(col, src, dst) && Limbo(col, src, dst) && at in col
    ensures Route(col, at, k, false, hops) == None
    decreases hops
  {
    if hops != 0 {
      LimboLoops(col, src, dst, col[at].owner, k, hops - 1);
    }
  }

  /** Exactly when a migration is readable: the two masters of the pair do not point at each other. */
  lemma ReadableUnlessLimbo(col: Column, src: NodeId, dst: NodeId)
    requires InFlight(col, src, dst)
    ensures ReadsResolve(col, src, dst) <==> !Limbo(col, src, dst)
  {
    if Limbo(col, src, dst) {
      LimboLoops(col, src, dst, src, "", 4);
    } else {
      forall at, k | at in col
        ensures var n := Route(col, at, k, false, 4);
                n.Some? && n.value in col && SameAt(col[n.value].keys, Visible(col, src, dst), k)
      {
        ReachesServer(col, src, dst, at, k, 4);
        ServerIsRight(col, src, dst, k, Route(col, at, k, false, 4));
      }
    }
  }

  // ---- writes ----

  /** The column after the routed master executes SET k v. */
  function SetKey(col: Column, n: NodeId, k: string, v: string): Column
    requires n in col
  {
    col[n := col[n].(keys := col[n].keys[k := v])]
  }

  /** The column after the routed master executes DEL k. */
  function DelKey(col: Column, n: NodeId, k: string): Column
    requires n in col
  {
    col[n := col[n].(keys := col[n].keys - {k})]
  }

  /** The slot is being handed over without the MIGRATING marker on a source that still serves it,
      as the empty-slot shortcut does. */
  predicate Unguarded(col: Column, src: NodeId, dst: NodeId) {
    && src in col && col[src].owner == src && col[src].migrating == None
    && exists n :: n in col && col[n].owner == dst
  }

  /** Only a slot without keys is ever handed over unguarded. */
  lemma UnguardedIsEmpty(col: Column, src: NodeId, dst: NodeId)
    requires InFlight(col, src, dst) && Unguarded(col, src, dst)
    ensures Visible(col, src, dst) == map[]
  {
  }

  lemma SetChanges(col: Column, src: NodeId, dst: NodeId, k: string, v: string, n: NodeId)
    requires src in col && dst in col && src != dst && (n == src || (n == dst && k !in col[src].keys))
    ensures var after := SetKey(col, n, k, v);
            && after.Keys == col.Keys && k in after[n].keys
            && (forall m | m in col :: after[m] == col[m].(keys := after[m].keys))
            && (forall m | m in col && m != n :: after[m] == col[m])
            && Visible(after, src, dst) == Visible(col, src, dst)[k := v]
  {
    var source, target := col[src].keys, col[dst].keys;
    if n == src {
      assert target + source[k := v] == (target + source)[k := v];
    } else {
      assert target[k := v] + source == (target + source)[k := v];
    }
  }

  /** A SET executed during a migration shows up in the visible keys, and nothing else changes, exactly
      when the slot is not handed over unguarded. */
  lemma SetIsKept(col: Column, src: NodeId, dst: NodeId, k: string, v: string, n: NodeId)
    requires InFlight(col, src, dst) && Serves(col, src, dst, k, Some(n))
    ensures var after := SetKey(col, n, k, v);
            InFlight(after, src, dst) && Visible(after, src, dst) == Visible(col, src, dst)[k := v]
            <==> !Unguarded(col, src, dst)
  {
    SetChanges(col, src, dst, k, v, n);
    var after := SetKey(col, n, k, v);
    if Unguarded(col, src, dst) {
      var m :| m in col && col[m].owner == dst;
      assert after[m].owner == dst;
      assert after[n].keys != map[];
    } else {
      SetKeepsInFlight(col, src, dst, k, v, n);
    }
  }

  lemma SetKeepsInFlight(col: Column, src: NodeId, dst: NodeId, k: string, v: string, n: NodeId)
    requires InFlight(col, src, dst) && Serves(col, src, dst, k, Some(n)) && !Unguarded(col, src, dst)
    ensures InFlight(SetKey(col, n, k, v), src, dst)
  {
    SetChanges(col, src, dst, k, v, n);
    var after := SetKey(col, n, k, v);
    if m :| m in after && after[m].owner == dst {
      assert col[m].owner == dst;
      assert col[src].keys == map[];
      assert n == dst;
    }
    if n == dst {
      assert col[src].migrating == Some(dst) || col[src].owner == dst;
    }
  }

  lemma DelChanges(col: Column, src: NodeId, dst: NodeId, k: string, n: NodeId)
    requires src in col && dst in col && src != dst && n in {src, dst}
    ensures var after := DelKey(col, n, k);
            && after.Keys == col.Keys
            && (forall m | m in col && m != n :: after[m] == col[m])
            && after[n] == col[n].(keys := col[n].keys - {k})
            && (col[n].keys == map[] ==> after[n].keys == map[])
  {
  }

  lemma DelKeepsInFlight(col: Column, after: Column, src: NodeId, dst: NodeId, k: string, n: NodeId)
    requires InFlight(col, src, dst) && n in {src, dst} && after.Keys == col.Keys
    requires forall m | m in col && m != n :: after[m] == col[m]
    requires after[n] == col[n].(keys := col[n].keys - {k}) && (col[n].keys == map[] ==> after[n].keys == map[])
    ensures InFlight(after, src, dst)
  {
    assert col[dst].keys == map[] ==> after[dst].keys == map[];
  }

  /** A DEL executed during a migration removes the key from the visible keys, and nothing else changes,
      exactly when it is not the source that deletes a key whose stale copy sits on the target. */
  lemma DelIsKept(col: Column, src: NodeId, dst: NodeId, k: string, n: NodeId)
    requires InFlight(col, src, dst) && Serves(col, src, dst, k, Some(n))
    ensures var after := DelKey(col, n, k);
            InFlight(after, src, dst) && Visible(after, src, dst) == Visible(col, src, dst) - {k}
            <==> !(k in col[src].keys && k in col[dst].keys)
  {
    DelChanges(col, src, dst, k, n);
    var after := DelKey(col, n, k);
    hide DelKey;
    DelKeepsInFlight(col, after, src, dst, k, n);
    hide InFlight;
    var source, target := col[src].keys, col[dst].keys;
    if k in source && k in target {
      assert k in Visible(after, src, dst);
    } else if n == src {
      assert k !in target || k !in source;
      assert target + (source - {k}) == (target + source) - {k};
    } else {
      assert (target - {k}) + source == (target + source) - {k};
    }
  }

  /** The shortcut can lose a write: while an empty slot is handed over, a key written through the
      source is gone from the reader's view once it asks the target, and the source then refuses to
      let the slot go. */
  lemma ShortcutLosesWrite()
    ensures exists col: Column, src, dst, k, v ::
              && InFlight(col, src, dst) && Unguarded(col, src, dst)
              && Route(col, src, k, false, 4) == Some(src)
              && var after := SetKey(col, src, k, v);
                 && Route(after, dst, k, false, 4) == Some(dst) && k !in after[dst].keys
                 && SetNode(after, src, dst) == None
  {
    var col := map["a" := View("a", None, None, map[]), "b" := View("b", None, None, map[])];
    assert Unguarded(col, "a", "b") by { assert col["b"].owner == "b"; }
    var after := SetKey(col, "a", "k", "v");
    assert "k" in after["a"].keys && after["a"].owner == "a";
    assert Route(after, "b", "k", false, 4) == Some("b");
    assert SetNode(after, "a", "b") == None;
  }

  /** A MIGRATE that stopped after copying leaves a key on both masters; deleted through the source, it is still among
      the visible keys. */
  lemma StaleCopyReturns()
    ensures var col: Column :=
              map["a" := View("a", None, Some("b"), map["k" := "v"]),
                  "b" := View("a", Some("a"), None, map["k" := "v"])];
            && InFlight(col, "a", "b") && Serves(col, "a", "b", "k", Some("a"))
            && "k" in Visible(DelKey(col, "a", "k"), "a", "b")
  {
  }
}
