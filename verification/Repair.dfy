/** Finalizing slots an interrupted migration left open: `RepairSlots`. */
module Repair {
  import opened Wrappers
  import opened Cluster
  import opened SlotState
  import opened Masters
  import opened Mover
  import opened Routing

  /** Some master has `v` for `k`. */
  ghost predicate Holds(col: Column, k: string, v: string) {
    exists n :: HoldsAt(col, n, k, v)
  }

  predicate HoldsAt(col: Column, n: NodeId, k: string, v: string) {
    n in col && k in col[n].keys && col[n].keys[k] == v
  }

  /** The masters together have the same values for the same keys. */
  ghost predicate SameHeld(a: Column, b: Column) {
    forall k, v :: Holds(a, k, v) <==> Holds(b, k, v)
  }

  /** `k` sits on two masters. */
  ghost predicate Shared(col: Column, k: string) {
    exists n, m :: n in col && m in col && n != m && k in col[n].keys && k in col[m].keys
  }

  ghost predicate NoneShared(col: Column) {
    forall k :: !Shared(col, k)
  }

  ghost predicate SameShared(a: Column, b: Column) {
    forall k :: Shared(b, k) <==> Shared(a, k)
  }

  /** Only `o` holds keys of the slot. */
  ghost predicate NoStrays(col: Column, o: NodeId) {
    forall n | n in col && n != o :: col[n].keys == map[]
  }

  /** Master `n` has no keys to bring home to `o`, or one fetch brings them all: there are at most 1000, `n` may send
      them and `o` takes them in. */
  ghost predicate Fetchable(col: Column, n: NodeId, o: NodeId)
    requires n in col
  {
    col[n].keys == map[] || (Accepts(col, o) && Sends(col, n) && |col[n].keys| <= 1000)
  }

  /** What RepairSlots can finish: no key sits on two masters, and each master but the owner is `Fetchable`. */
  ghost predicate Repairable(col: Column, o: NodeId) {
    o in col && NoneShared(col) && forall n | n in col && n != o :: Fetchable(col, n, o)
  }

  lemma MigrateKeyMarks(col: Column, at: NodeId, to: NodeId, k: string)
    ensures SameMarks(col, MigrateKey(col, at, to, k))
    ensures forall n | n in col && n != at && n != to :: MigrateKey(col, at, to, k)[n] == col[n]
  {
  }

  /** Where the copies are: `k` has left `at` for `to`, every other copy is where it was. */
  lemma MigrateKeyMoves(col: Column, at: NodeId, to: NodeId, k: string)
    requires Migrates(col, at, to, k)
    ensures var after := MigrateKey(col, at, to, k);
            && after.Keys == col.Keys
            && k !in after[at].keys && k in after[to].keys && after[to].keys[k] == col[at].keys[k]
            && (forall n | n in col && n != at && n != to :: after[n] == col[n])
            && (forall n, j | n in col && j != k :: j in after[n].keys <==> j in col[n].keys)
            && (forall n, j | n in col && j != k && j in col[n].keys :: after[n].keys[j] == col[n].keys[j])
  {
  }

  /** Nothing is lost and nothing is overwritten. */
  lemma MigrateKeyHolds(col: Column, at: NodeId, to: NodeId, k: string)
    ensures SameHeld(col, MigrateKey(col, at, to, k))
  {
    if Migrates(col, at, to, k) {
      var after := MigrateKey(col, at, to, k);
      MigrateKeyMoves(col, at, to, k);
      assert k in col[at].keys && k !in col[to].keys;
      hide MigrateKey, Migrates;
      forall j, v
        ensures Holds(col, j, v) <==> Holds(after, j, v)
      {
        if n :| HoldsAt(col, n, j, v) {
          assert HoldsAt(after, if j == k && n == at then to else n, j, v);
        }
        if n :| HoldsAt(after, n, j, v) {
          assert HoldsAt(col, if j == k && n == to then at else n, j, v);
        }
      }
    }
  }

  /** A key on two masters stays on two masters, and none gets there. */
  lemma MigrateKeyShared(col: Column, at: NodeId, to: NodeId, k: string, j: string)
    ensures Shared(MigrateKey(col, at, to, k), j) <==> Shared(col, j)
  {
    if Migrates(col, at, to, k) {
      var after := MigrateKey(col, at, to, k);
      MigrateKeyMoves(col, at, to, k);
      assert at in col && to in col && k in col[at].keys && k !in col[to].keys;
      hide MigrateKey, Migrates;
      if j != k {
        assert forall n | n in col :: j in after[n].keys <==> j in col[n].keys;
      } else {
        assert forall n | n in col && n != at && n != to :: j in after[n].keys <==> j in col[n].keys;
        assert Shared(col, j) <==> exists n :: n in col && n != at && n != to && j in col[n].keys;
        assert Shared(after, j) <==> exists n :: n in col && n != at && n != to && j in after[n].keys;
      }
    }
  }

  /** One key fewer at most. */
  lemma MigrateKeySize(col: Column, at: NodeId, to: NodeId, k: string)
    requires at in col && at != to
    ensures |col[at].keys| - 1 <= |MigrateKey(col, at, to, k)[at].keys| <= |col[at].keys|
    ensures MigrateKey(col, at, to, k)[at].keys.Keys <= col[at].keys.Keys
    ensures MigrateKey(col, at, to, k)[at].keys.Keys >= col[at].keys.Keys - {k}
  {
    var m := col[at].keys;
    if k in m {
      assert (m - {k}).Keys == m.Keys - {k};
      assert |m| == |m.Keys| && |m - {k}| == |(m - {k}).Keys|;
    }
  }

  /** A copy left behind by a MIGRATE that was cut short. */
  lemma CopyHolds(col: Column, at: NodeId, to: NodeId, k: string)
    requires Migrates(col, at, to, k)
    ensures SameHeld(col, CopyKey(col, at, to, k))
  {
    var after := CopyKey(col, at, to, k);
    assert after.Keys == col.Keys && k in col[at].keys && k !in col[to].keys;
    assert forall n | n in col && n != to :: after[n] == col[n];
    assert after[to].keys == col[to].keys[k := col[at].keys[k]];
    hide CopyKey, Migrates;
    forall j, v
      ensures Holds(col, j, v) <==> Holds(after, j, v)
    {
      if n :| HoldsAt(col, n, j, v) {
        assert HoldsAt(after, n, j, v);
      }
      if n :| HoldsAt(after, n, j, v) {
        assert HoldsAt(col, if j == k && n == to then at else n, j, v);
      }
    }
  }

  // ---- step 1: bring stray keys home ----

  /** One pass over a non-owner's keys, nothing lost on the way. */
  ghost predicate Emptied(col0: Column, col: Column, at: NodeId, to: NodeId, count: nat) {
    && SameMarks(col0, col)
    && (forall n | n in col0 && n != at && n != to :: col[n] == col0[n])
    && SameShared(col0, col)
    && (!Accepts(col0, to) || !Sends(col0, at) ==> col == col0)
    && (at in col0 ==> PartOf(col[at].keys, col0[at].keys))
    && (at in col0 ==> |col[at].keys| <= |col0[at].keys| <= |col[at].keys| + count)
  }

  lemma EmptiedStep(col0: Column, col: Column, at: NodeId, to: NodeId, k: string, count: nat)
    requires Emptied(col0, col, at, to, count) && at != to
    ensures Emptied(col0, MigrateKey(col, at, to, k), at, to, count + 1)
  {
    MigrateKeyMarks(col, at, to, k);
    assert !Accepts(col, to) || !Sends(col, at) ==> MigrateKey(col, at, to, k) == col;
    assert (Accepts(col, to) <==> Accepts(col0, to)) && (Sends(col, at) <==> Sends(col0, at));
    if at in col {
      assert PartOf(MigrateKey(col, at, to, k)[at].keys, col[at].keys);
      PartOfOn(MigrateKey(col, at, to, k)[at].keys, col[at].keys, col0[at].keys);
    }
    hide MigrateKey, Shared, PartOf, Accepts, Sends;
    assert SameShared(col0, MigrateKey(col, at, to, k)) by {
      forall j
        ensures Shared(MigrateKey(col, at, to, k), j) <==> Shared(col0, j)
      {
        MigrateKeyShared(col, at, to, k, j);
      }
    }
    hide SameShared;
    if at in col {
      MigrateKeySize(col, at, to, k);
    }
  }

  /** A master whose keys can all be brought home: both sides are willing and no key sits on two masters. */
  ghost predicate Unhindered(col: Column, at: NodeId, to: NodeId) {
    Sends(col, at) && Accepts(col, to) && NoneShared(col)
  }

  /** With no key shared and a willing owner, each key fetched really leaves. */
  lemma KeyLeaves(col: Column, at: NodeId, to: NodeId, k: string)
    requires at != to && Unhindered(col, at, to) && k in col[at].keys
    ensures MigrateKey(col, at, to, k)[at].keys.Keys == col[at].keys.Keys - {k}
  {
    assert !Shared(col, k) && Migrates(col, at, to, k);
    hide Accepts, NoneShared, Shared, Migrates;
    assert (col[at].keys - {k}).Keys == col[at].keys.Keys - {k};
  }

  /** When everything fits in one fetch, the fetch is everything. */
  lemma FetchedAll(m: Keyspace, count: nat, ks: seq<string>)
    requires Fetched(m, count, ks) && |m| <= count
    ensures m.Keys == Elems(ks)
  {
    DistinctSize(ks);
    assert |m| == |m.Keys|;
    FullSubset(Elems(ks), m.Keys);
  }

  /** The rest of the cluster, and the copies of the slot's keys, are as before. */
  ghost predicate Harmless(c0: State, c: State, s: int)
    requires s in c0
  {
    && c.Keys == c0.Keys
    && (forall t | t in c0 && t != s :: c[t] == c0[t])
    && c[s].Keys == c0[s].Keys
    && SameHeld(c0[s], c[s])
  }

  /** The first i fetched keys have been dealt with. */
  ghost predicate Emptying(col0: Column, col: Column, at: NodeId, to: NodeId, keys: seq<string>, i: nat)
    requires i <= |keys|
  {
    && Emptied(col0, col, at, to, i)
    && (Unhindered(col0, at, to) ==> col[at].keys.Keys == col0[at].keys.Keys - Elems(keys[..i]))
  }

  lemma EmptyingStart(col: Column, at: NodeId, to: NodeId, keys: seq<string>)
    ensures Emptying(col, col, at, to, keys, 0)
  {
  }

  lemma StillUnhindered(col0: Column, col: Column, at: NodeId, to: NodeId, count: nat)
    requires Emptied(col0, col, at, to, count) && Unhindered(col0, at, to)
    ensures Unhindered(col, at, to)
  {
    SharedTrans(col0, col, col);
    hide SameShared, NoneShared;
  }

  lemma NextFetched(m: Keyspace, count: nat, keys: seq<string>, i: nat)
    requires Fetched(m, count, keys) && i < |keys|
    ensures keys[i] in m && keys[i] !in Elems(keys[..i]) && Elems(keys[..i + 1]) == Elems(keys[..i]) + {keys[i]}
  {
    assert keys[i] in keys;
    assert keys[..i + 1] == keys[..i] + [keys[i]];
  }

  lemma EmptyingNext(col0: Column, col: Column, at: NodeId, to: NodeId, keys: seq<string>, i: nat)
    requires i < |keys| && at != to && Emptying(col0, col, at, to, keys, i)
    requires at in col0 && Fetched(col0[at].keys, 1000, keys)
    ensures Emptying(col0, MigrateKey(col, at, to, keys[i]), at, to, keys, i + 1)
  {
    EmptiedStep(col0, col, at, to, keys[i], i);
    if Unhindered(col0, at, to) {
      StillUnhindered(col0, col, at, to, i);
      NextFetched(col0[at].keys, 1000, keys, i);
      hide MigrateKey, Emptied, Unhindered, Elems, Fetched;
      KeyLeaves(col, at, to, keys[i]);
    }
  }

  lemma EmptiedWithin(col0: Column, col: Column, at: NodeId, to: NodeId, keys: seq<string>, count: nat)
    requires Emptying(col0, col, at, to, keys, |keys|) && |keys| <= count
    ensures Emptied(col0, col, at, to, count)
  {
    hide SameShared, Accepts;
  }

  lemma EmptyingDone(col0: Column, col: Column, at: NodeId, to: NodeId, keys: seq<string>)
    requires Emptying(col0, col, at, to, keys, |keys|) && Unhindered(col0, at, to)
    requires Fetched(col0[at].keys, 1000, keys) && |col0[at].keys| <= 1000
    ensures col[at].keys == map[]
  {
    FetchedAll(col0[at].keys, 1000, keys);
    assert keys[..|keys|] == keys;
    assert col[at].keys.Keys == {};
  }

  lemma StraysMoved(col0: Column, col: Column, at: NodeId, to: NodeId, keys: seq<string>, ok: bool)
    requires Emptying(col0, col, at, to, keys, |keys|)
    requires ok ==> at in col0 && Fetched(col0[at].keys, 1000, keys)
    requires at in col0 ==> ok
    requires !ok ==> keys == []
    ensures Emptied(col0, col, at, to, 1000)
    ensures Unhindered(col0, at, to) && |col0[at].keys| <= 1000 ==> col[at].keys == map[]
  {
    EmptiedWithin(col0, col, at, to, keys, 1000);
    if Unhindered(col0, at, to) && |col0[at].keys| <= 1000 {
      EmptyingDone(col0, col, at, to, keys);
    }
  }

  /** Migrate up to 1000 of the keys master `at` holds to the owner, one by one, ignoring every reply. */
  method MoveStrays(sv: Servers, s: int, at: NodeId, owner: NodeId)
    requires s in sv.slots && at != owner
    modifies sv
    ensures sv.faults >= old(sv.faults)
    ensures Harmless(old(sv.slots), sv.slots, s)
    ensures sv.faults == old(sv.faults) ==> Emptied(old(sv.slots)[s], sv.slots[s], at, owner, 1000)
    ensures (sv.faults == old(sv.faults) && Unhindered(old(sv.slots)[s], at, owner)
             && |old(sv.slots)[s][at].keys| <= 1000) ==> sv.slots[s][at].keys == map[]
  {
    assert Harmless(sv.slots, sv.slots, s);
    hide Harmless, MigrateKey, Migrates, CopyKey, Emptying, Emptied, Unhindered, Accepts, Fetched;
    var ok, keys := sv.GetKeysInSlot(s, at, 1000);
    ghost var col0, f := sv.slots[s], sv.faults;
    EmptyingStart(col0, at, owner, keys);
    for i := 0 to |keys|
      invariant sv.faults >= f >= old(sv.faults)
      invariant Harmless(old(sv.slots), sv.slots, s)
      invariant sv.faults == old(sv.faults) ==> Emptying(col0, sv.slots[s], at, owner, keys, i)
    {
      StrayStep(old(sv.slots), sv.slots, s, at, owner, keys[i]);
      if sv.faults == old(sv.faults) {
        EmptyingNext(col0, sv.slots[s], at, owner, keys, i);
      }
      sv.Migrate(s, at, owner, keys[i]);
    }
    if sv.faults == old(sv.faults) {
      StraysMoved(col0, sv.slots[s], at, owner, keys, ok);
    }
  }

  lemma StrayStep(c0: State, c: State, s: int, at: NodeId, to: NodeId, k: string)
    requires s in c0 && Harmless(c0, c, s)
    ensures Harmless(c0, c[s := MigrateKey(c[s], at, to, k)], s)
    ensures Migrates(c[s], at, to, k) ==> Harmless(c0, c[s := CopyKey(c[s], at, to, k)], s)
  {
    MigrateKeyHolds(c[s], at, to, k);
    MigrateKeyMarks(c[s], at, to, k);
    if Migrates(c[s], at, to, k) {
      CopyHolds(c[s], at, to, k);
    }
  }

  /** The listed masters whose strays are collected: not the owner, with an address. */
  function Strays(nodes: seq<NodeInfo>, o: NodeId): seq<NodeId> {
    if nodes == [] then []
    else
      var last := nodes[|nodes| - 1];
      Strays(nodes[..|nodes| - 1], o) + if last.id == o || last.ip == "" || !last.IsPrimary() then [] else [last.id]
  }

  /** The columns differ in where keys are, not in how many masters share one; an unwilling owner took nothing. */
  ghost predicate Rearranged(col0: Column, col: Column, o: NodeId) {
    SameMarks(col0, col) && SameShared(col0, col) && (!Accepts(col0, o) ==> col == col0)
  }

  /** A master not visited, or not allowed to send, is untouched; one visited once lost 1000 keys at most. */
  ghost predicate Shrunk(col0: Column, col: Column, o: NodeId, visited: seq<NodeId>)
    requires col.Keys == col0.Keys
  {
    && (forall n | n in col0 && n != o && (n !in visited || !Sends(col0, n)) :: col[n] == col0[n])
    && (forall n | n in col0 && n != o :: PartOf(col[n].keys, col0[n].keys))
    && (forall n | n in col0 && n != o :: |col[n].keys| <= |col0[n].keys|)
    && (Distinct(visited) ==> forall n | n in col0 && n != o :: |col0[n].keys| <= |col[n].keys| + 1000)
  }

  /** The masters in `visited` have been emptied towards `o` as far as possible. */
  ghost predicate Gathered(col0: Column, col: Column, o: NodeId, visited: seq<NodeId>) {
    && Rearranged(col0, col, o)
    && Shrunk(col0, col, o, visited)
    && (NoneShared(col0) ==>
          forall n | n in col0 && n in visited && n != o && Fetchable(col0, n, o) :: col[n].keys == map[])
  }

  lemma GatheredStart(col: Column, o: NodeId)
    ensures Gathered(col, col, o, [])
  {
  }

  lemma SharedTrans(a: Column, b: Column, c: Column)
    requires SameShared(a, b)
    ensures SameShared(b, c) ==> SameShared(a, c)
    ensures NoneShared(a) <==> NoneShared(b)
  {
    hide Shared;
  }

  lemma RearrangedMore(col0: Column, col: Column, col': Column, o: NodeId, at: NodeId)
    requires Rearranged(col0, col, o) && Emptied(col, col', at, o, 1000)
    ensures Rearranged(col0, col', o) && (Accepts(col, o) <==> Accepts(col0, o))
    ensures (NoneShared(col) <==> NoneShared(col0))
  {
    SharedTrans(col0, col, col');
    hide SameShared, NoneShared;
  }

  lemma PartOfOn(a: Keyspace, b: Keyspace, c: Keyspace)
    requires PartOf(a, b) && PartOf(b, c)
    ensures PartOf(a, c)
  {
  }

  lemma VisitedOnce(visited: seq<NodeId>, at: NodeId)
    requires Distinct(visited + [at])
    ensures Distinct(visited) && at !in visited
  {
    assert forall i | 0 <= i < |visited| :: (visited + [at])[i] == visited[i];
    assert (visited + [at])[|visited|] == at;
  }

  lemma ShrunkMore(col0: Column, col: Column, col': Column, o: NodeId, visited: seq<NodeId>, at: NodeId)
    requires col.Keys == col0.Keys && Shrunk(col0, col, o, visited) && Emptied(col, col', at, o, 1000) && at != o
    ensures Shrunk(col0, col', o, visited + [at])
  {
    hide SameShared, Accepts, PartOf;
    var once := Distinct(visited + [at]);
    if once {
      VisitedOnce(visited, at);
    }
    hide Distinct;
    forall n | n in col0 && n != o
      ensures n !in visited + [at] || !Sends(col0, n) ==> col'[n] == col0[n]
      ensures PartOf(col'[n].keys, col0[n].keys) && |col'[n].keys| <= |col0[n].keys|
      ensures once ==> |col0[n].keys| <= |col'[n].keys| + 1000
    {
      if n == at {
        PartOfOn(col'[n].keys, col[n].keys, col0[n].keys);
        assert !Sends(col0, n) ==> col[n] == col0[n] && !Sends(col, n);
      }
    }
  }

  lemma PartOfNothing(m: Keyspace)
    requires PartOf(m, map[])
    ensures m == map[]
  {
    assert m.Keys == {};
  }

  lemma GatheredMore(col0: Column, col: Column, col': Column, o: NodeId, visited: seq<NodeId>, at: NodeId)
    requires Gathered(col0, col, o, visited) && at != o && Emptied(col, col', at, o, 1000)
    requires Unhindered(col, at, o) && |col[at].keys| <= 1000 ==> col'[at].keys == map[]
    ensures Gathered(col0, col', o, visited + [at])
  {
    RearrangedMore(col0, col, col', o, at);
    ShrunkMore(col0, col, col', o, visited, at);
    if NoneShared(col0) {
      assert Sends(col0, at) && Accepts(col0, o) ==> Unhindered(col, at, o);
      hide NoneShared, SameShared;
      forall n | n in col0 && n in visited + [at] && n != o && Fetchable(col0, n, o)
        ensures col'[n].keys == map[]
      {
        if n != at {
          assert col'[n] == col[n];
        } else if col0[n].keys == map[] {
          assert PartOf(col'[n].keys, map[]);
          PartOfNothing(col'[n].keys);
        }
      }
    }
  }

  // ---- step 2: clear the markers and assert the owner ----

  /** A view after SETSLOT STABLE and then SETSLOT NODE o, which an owner with keys refuses. */
  function Fixed(v: View, at: NodeId, o: NodeId): View {
    View(if v.owner == at && o != at && v.keys != map[] then at else o, None, None, v.keys)
  }

  function FixOn(col: Column, ms: seq<NodeId>, o: NodeId): Column {
    map n | n in col :: if n in ms then Fixed(col[n], n, o) else col[n]
  }

  /** The column after a command that may be refused. */
  function Executed(col: Column, effect: Option<Column>): Column {
    match effect case Some(c) => c case None => col
  }

  lemma FixOneMore(col: Column, ms: seq<NodeId>, m: NodeId, o: NodeId)
    requires o in col
    ensures var stable := Executed(FixOn(col, ms, o), SetStable(FixOn(col, ms, o), m));
            Executed(stable, SetNode(stable, m, o)) == FixOn(col, ms + [m], o)
  {
    var col' := FixOn(col, ms, o);
    if m in col {
      assert Fixed(Fixed(col[m], m, o), m, o) == Fixed(col[m], m, o);
    } else {
      assert FixOn(col, ms + [m], o) == col';
    }
  }

  lemma FixNone(col: Column, o: NodeId)
    ensures FixOn(col, [], o) == col
  {
  }

  /** What a repair towards `o` leaves, apart from keys that came home: every master unmarked and following `o`, except
      one that counts itself owner and still has keys; and each key that was not moved still where it was. */
  ghost predicate Leaves(col0: Column, col: Column, o: NodeId) {
    && col.Keys == col0.Keys
    && (forall n | n in col :: col[n] == Fixed(col0[n].(keys := col[n].keys), n, o))
    && (forall n | n in col && n != o :: PartOf(col[n].keys, col0[n].keys))
    && (NoneShared(col0) ==>
          NoneShared(col) && forall n | n in col && n != o :: col[n].keys == map[] <==> Fetchable(col0, n, o))
  }

  /** RepairSlots settles a slot on the owner the seed saw, with every key of the slot, exactly when the slot
      was `Repairable`. Its markers are gone either way, and a master is empty exactly when it was `Fetchable`. */
  lemma RepairedIff(col0: Column, col1: Column, o: NodeId, visited: seq<NodeId>, ms: seq<NodeId>)
    requires Gathered(col0, col1, o, visited) && Distinct(visited) && o in col0
    requires forall n | n in col0 :: n in ms && (n != o ==> n in visited)
    ensures Settled(FixOn(col1, ms, o), o) <==> Repairable(col0, o)
    ensures Leaves(col0, FixOn(col1, ms, o), o)
  {
    hide *;
    GatheredMarks(col0, col1, o, visited);
    GatheredAll(col0, col1, o, visited);
    FixAll(col1, ms, o);
    SameKeysShared(col1, FixOn(col1, ms, o));
    LeavesIf(col0, col1, FixOn(col1, ms, o), o);
  }

  lemma GatheredMarks(col0: Column, col1: Column, o: NodeId, visited: seq<NodeId>)
    requires Gathered(col0, col1, o, visited)
    ensures col1.Keys == col0.Keys && forall n | n in col0 :: col1[n] == col0[n].(keys := col1[n].keys)
  {
    hide Shrunk, SameShared, Accepts, NoneShared;
  }

  lemma LeavesIf(col0: Column, col1: Column, col: Column, o: NodeId)
    requires col1.Keys == col0.Keys && forall n | n in col0 :: col1[n] == col0[n].(keys := col1[n].keys)
    requires col.Keys == col1.Keys && (forall n | n in col1 :: col[n] == Fixed(col1[n], n, o))
    requires (forall n | n in col1 :: col[n].keys == col1[n].keys) && (NoneShared(col1) <==> NoneShared(col))
    requires NoneShared(col0) <==> NoneShared(col1)
    requires forall n | n in col0 && n != o :: PartOf(col1[n].keys, col0[n].keys)
    requires NoneShared(col0) ==> forall n | n in col0 && n != o :: col1[n].keys == map[] <==> Fetchable(col0, n, o)
    ensures Leaves(col0, col, o)
  {
    hide Fixed, NoneShared, Fetchable, PartOf;
  }

  lemma FixAll(col: Column, ms: seq<NodeId>, o: NodeId)
    requires o in col && forall n | n in col :: n in ms
    ensures var after := FixOn(col, ms, o);
            && after.Keys == col.Keys && (forall n | n in col :: after[n] == Fixed(col[n], n, o))
            && (forall n | n in col :: after[n].keys == col[n].keys)
            && (Settled(after, o) <==> NoStrays(col, o))
  {
  }

  lemma SameKeysShared(a: Column, b: Column)
    requires a.Keys == b.Keys && forall n | n in a :: a[n].keys == b[n].keys
    ensures NoneShared(a) <==> NoneShared(b)
  {
    assert forall k :: Shared(a, k) <==> Shared(b, k);
  }

  lemma GatheredAll(col0: Column, col1: Column, o: NodeId, visited: seq<NodeId>)
    requires Gathered(col0, col1, o, visited) && Distinct(visited) && o in col0
    requires forall n | n in col0 && n != o :: n in visited
    ensures NoStrays(col1, o) <==> Repairable(col0, o)
    ensures NoneShared(col0) <==> NoneShared(col1)
    ensures forall n | n in col0 && n != o ::
              PartOf(col1[n].keys, col0[n].keys) && (col1[n].keys == map[] ==> Fetchable(col0, n, o))
    ensures NoneShared(col0) ==> forall n | n in col0 && n != o :: col1[n].keys == map[] <==> Fetchable(col0, n, o)
  {
    SharedTrans(col0, col1, col1);
    if NoStrays(col1, o) {
      assert NoneShared(col1);
    }
    hide SameShared, NoneShared, Accepts, Distinct;
  }

  // ---- the whole repair ----

  /** Every master of the column is listed as a primary with an address, and each ID once. */
  ghost predicate ListsAll(nodes: seq<NodeInfo>, col: Column) {
    && (forall i, j | 0 <= i < j < |nodes| :: nodes[i].id != nodes[j].id)
    && (forall n | n in col ::
          exists i :: 0 <= i < |nodes| && nodes[i].id == n && nodes[i].IsPrimary() && nodes[i].ip != "")
  }

  lemma {:induction false} StraysFrom(nodes: seq<NodeInfo>, o: NodeId)
    ensures forall n | n in Strays(nodes, o) :: n != o && exists i :: 0 <= i < |nodes| && nodes[i].id == n
    ensures (forall i, j | 0 <= i < j < |nodes| :: nodes[i].id != nodes[j].id) ==> Distinct(Strays(nodes, o))
  {
    if nodes != [] {
      var rest, last := nodes[..|nodes| - 1], nodes[|nodes| - 1];
      StraysFrom(rest, o);
      assert forall i | 0 <= i < |rest| :: rest[i] == nodes[i];
      if forall i, j | 0 <= i < j < |nodes| :: nodes[i].id != nodes[j].id {
        assert last.id !in Strays(rest, o);
        assert Distinct(Strays(rest, o));
      }
    }
  }

  /** The masters visited are exactly the listed ones with an address, other than the owner. */
  lemma {:induction false} InStrays(nodes: seq<NodeInfo>, o: NodeId, n: NodeId)
    ensures n in Strays(nodes, o) <==>
            n != o && exists i :: 0 <= i < |nodes| && nodes[i].id == n && nodes[i].ip != "" && nodes[i].IsPrimary()
  {
    hide NodeInfo.IsPrimary;
    if nodes != [] {
      var rest := nodes[..|nodes| - 1];
      assert forall i | 0 <= i < |rest| :: rest[i] == nodes[i];
      InStrays(rest, o, n);
    }
  }

  lemma ListsAllIds(nodes: seq<NodeInfo>, col: Column, o: NodeId)
    requires ListsAll(nodes, col)
    ensures Distinct(Strays(nodes, o))
    ensures forall n | n in col :: n in Primaries(nodes) && (n != o ==> n in Strays(nodes, o))
  {
    StraysFrom(nodes, o);
    forall n | n in col
      ensures n in Primaries(nodes) && (n != o ==> n in Strays(nodes, o))
    {
      var i :| 0 <= i < |nodes| && nodes[i].id == n && nodes[i].IsPrimary() && nodes[i].ip != "";
      InPrimaries(nodes, n);
      InStrays(nodes, o, n);
    }
  }

  /** Step 1 of one slot's repair. */
  method GatherStrays(sv: Servers, s: int, nodes: seq<NodeInfo>, owner: NodeId)
    requires s in sv.slots
    modifies sv
    ensures sv.faults >= old(sv.faults)
    ensures Harmless(old(sv.slots), sv.slots, s)
    ensures sv.faults == old(sv.faults) ==> Gathered(old(sv.slots)[s], sv.slots[s], owner, Strays(nodes, owner))
  {
    GatheredStart(sv.slots[s], owner);
    for i := 0 to |nodes|
      invariant sv.faults >= old(sv.faults)
      invariant Harmless(old(sv.slots), sv.slots, s)
      invariant sv.faults == old(sv.faults) ==>
                  Gathered(old(sv.slots)[s], sv.slots[s], owner, Strays(nodes[..i], owner))
    {
      var n := nodes[i];
      assert nodes[..i + 1][..i] == nodes[..i];
      if n.id == owner || n.ip == "" || !n.IsPrimary() {
        assert Strays(nodes[..i + 1], owner) == Strays(nodes[..i], owner);
        continue;
      }
      assert Strays(nodes[..i + 1], owner) == Strays(nodes[..i], owner) + [n.id];
      ghost var c := sv.slots;
      MoveStrays(sv, s, n.id, owner);
      if sv.faults == old(sv.faults) {
        GatheredMore(old(sv.slots)[s], c[s], sv.slots[s], owner, Strays(nodes[..i], owner), n.id);
      }
    }
    assert nodes[..|nodes|] == nodes;
  }

  /** SETSLOT touches no key. */
  lemma MarksOnly(c0: State, c: State, s: int, at: NodeId, o: NodeId)
    requires s in c0 && Harmless(c0, c, s)
    ensures SetStable(c[s], at).Some? ==> Harmless(c0, c[s := SetStable(c[s], at).value], s)
    ensures SetNode(c[s], at, o).Some? ==> Harmless(c0, c[s := SetNode(c[s], at, o).value], s)
  {
    hide Holds;
    if SetStable(c[s], at).Some? {
      SameKeysHeld(c[s], SetStable(c[s], at).value);
    }
    if SetNode(c[s], at, o).Some? {
      SameKeysHeld(c[s], SetNode(c[s], at, o).value);
    }
  }

  lemma SameKeysHeld(a: Column, b: Column)
    requires a.Keys == b.Keys && forall n | n in a :: a[n].keys == b[n].keys
    ensures SameHeld(a, b)
  {
    assert forall n, k, v :: HoldsAt(a, n, k, v) <==> HoldsAt(b, n, k, v);
  }

  /** SETSLOT STABLE and then SETSLOT NODE on one master, ignoring the replies. */
  method FixMaster(sv: Servers, s: int, m: NodeId, owner: NodeId)
    requires s in sv.slots
    modifies sv
    ensures sv.faults >= old(sv.faults)
    ensures Harmless(old(sv.slots), sv.slots, s)
    ensures sv.faults == old(sv.faults) ==>
              var stable := Executed(old(sv.slots)[s], SetStable(old(sv.slots)[s], m));
              sv.slots[s] == Executed(stable, SetNode(stable, m, owner))
  {
    assert Harmless(sv.slots, sv.slots, s);
    hide SetStable, SetNode, SameHeld;
    MarksOnly(old(sv.slots), sv.slots, s, m, owner);
    var _ := sv.Send(s, SetStable(sv.slots[s], m));
    MarksOnly(old(sv.slots), sv.slots, s, m, owner);
    var _ := sv.Send(s, SetNode(sv.slots[s], m, owner));
  }

  lemma HarmlessTrans(c0: State, c: State, c': State, s: int)
    requires s in c0 && Harmless(c0, c, s) && Harmless(c, c', s)
    ensures Harmless(c0, c', s)
  {
    hide Holds;
  }

  /** Step 2 of one slot's repair. */
  method FixMasters(sv: Servers, s: int, masters: seq<NodeId>, owner: NodeId)
    requires s in sv.slots
    modifies sv
    ensures sv.faults >= old(sv.faults)
    ensures Harmless(old(sv.slots), sv.slots, s)
    ensures sv.faults == old(sv.faults) && owner in old(sv.slots)[s] ==>
              sv.slots[s] == FixOn(old(sv.slots)[s], masters, owner)
  {
    assert Harmless(sv.slots, sv.slots, s);
    hide FixOn, SetStable, SetNode, Executed, SameHeld;
    ghost var col := sv.slots[s];
    FixNone(col, owner);
    for i := 0 to |masters|
      invariant sv.faults >= old(sv.faults)
      invariant Harmless(old(sv.slots), sv.slots, s)
      invariant sv.faults == old(sv.faults) && owner in col ==> sv.slots[s] == FixOn(col, masters[..i], owner)
    {
      ghost var c := sv.slots;
      if owner in col {
        FixOneMore(col, masters[..i], masters[i], owner);
        assert masters[..i] + [masters[i]] == masters[..i + 1];
      }
      FixMaster(sv, s, masters[i], owner);
      HarmlessTrans(old(sv.slots), c, sv.slots, s);
    }
    assert masters[..|masters|] == masters;
  }

  /** `o` has exactly the keys, with the values, that some master had. */
  ghost predicate HoldsAll(col0: Column, col: Column, o: NodeId) {
    forall k, v :: HoldsAt(col, o, k, v) <==> Holds(col0, k, v)
  }

  lemma SettledHoldsAll(col0: Column, col: Column, o: NodeId)
    requires SameHeld(col0, col) && Settled(col, o)
    ensures HoldsAll(col0, col, o)
  {
    forall k, v
      ensures HoldsAt(col, o, k, v) <==> Holds(col0, k, v)
    {
      assert Holds(col0, k, v) <==> Holds(col, k, v);
    }
  }

  /** What the repair of one slot towards `o` does when nothing fails: it rests on `o` exactly when it was
      `Repairable`, with every key any master had, and it is as `Leaves` says in any case. An owner that does not take
      keys in gets none, and the masters are told all the same. */
  ghost predicate SlotRepaired(col0: Column, col: Column, nodes: seq<NodeInfo>, o: NodeId) {
    o in col0 && ListsAll(nodes, col0) ==>
      && (Settled(col, o) <==> Repairable(col0, o))
      && (Settled(col, o) ==> HoldsAll(col0, col, o))
      && Leaves(col0, col, o) && SameHeld(col0, col)
      && (!Accepts(col0, o) ==> col == FixOn(col0, Primaries(nodes), o))
  }

  lemma LeavesUnmarked(col0: Column, col: Column, o: NodeId)
    requires Leaves(col0, col, o)
    ensures forall n | n in col :: col[n].importing == None && col[n].migrating == None
  {
    hide NoneShared, Fetchable;
  }

  /** One slot's repair: no copy of any key is lost whatever fails, and if nothing fails the slot comes to rest on
      the owner, with every key, exactly when it was `Repairable`. */
  method RepairSlot(sv: Servers, s: int, nodes: seq<NodeInfo>, owner: NodeId)
    requires s in sv.slots
    modifies sv
    ensures sv.faults >= old(sv.faults)
    ensures Harmless(old(sv.slots), sv.slots, s)
    ensures sv.faults == old(sv.faults) ==> SlotRepaired(old(sv.slots)[s], sv.slots[s], nodes, owner)
  {
    hide Settled, Repairable, FixOn, Accepts, SameHeld, HoldsAll, ListsAll, Shrunk, SameShared, SameMarks, Primaries;
    hide Leaves, Fetchable, NoneShared;
    GatherStrays(sv, s, nodes, owner);
    ghost var c, col := sv.slots, sv.slots[s];
    FixMasters(sv, s, Primaries(nodes), owner);
    HarmlessTrans(old(sv.slots), c, sv.slots, s);
    if sv.faults == old(sv.faults) && owner in old(sv.slots)[s] && ListsAll(nodes, old(sv.slots)[s]) {
      ListsAllIds(nodes, old(sv.slots)[s], owner);
      RepairedIff(old(sv.slots)[s], col, owner, Strays(nodes, owner), Primaries(nodes));
      if Settled(sv.slots[s], owner) {
        SettledHoldsAll(old(sv.slots)[s], sv.slots[s], owner);
      }
      assert !Accepts(old(sv.slots)[s], owner) ==> col == old(sv.slots)[s];
    }
  }

  /** A node the sweep for open slots asks. */
  predicate Reachable(n: NodeInfo) {
    n.connected && !n.HasFlag("fail") && !n.HasFlag("fail?") && !n.HasFlag("noaddr")
  }

  /** The slots some reachable listed node marks. */
  function OpenSlots(c: State, nodes: seq<NodeInfo>): set<int> {
    if nodes == [] then {}
    else
      var last := nodes[|nodes| - 1];
      OpenSlots(c, nodes[..|nodes| - 1]) + if Reachable(last) then OpenAt(c, last.id) else {}
  }

  lemma {:induction false} OpenSlotsIs(c: State, nodes: seq<NodeInfo>)
    ensures forall s :: s in OpenSlots(c, nodes) <==>
              exists i :: 0 <= i < |nodes| && Reachable(nodes[i]) && s in OpenAt(c, nodes[i].id)
    ensures forall i | 0 <= i < |nodes| ::
              Reachable(nodes[i]) <==>
                nodes[i].connected && forall f | f in ["fail", "fail?", "noaddr"] :: f !in nodes[i].flags
  {
    var down := ["fail", "fail?", "noaddr"];
    assert down[0] == "fail" && down[1] == "fail?" && down[2] == "noaddr";
    if nodes != [] {
      OpenSlotsIs(c, nodes[..|nodes| - 1]);
      forall s
        ensures s in OpenSlots(c, nodes) <==>
                exists i :: 0 <= i < |nodes| && Reachable(nodes[i]) && s in OpenAt(c, nodes[i].id)
      {
        var rest := nodes[..|nodes| - 1];
        assert forall i | 0 <= i < |rest| :: rest[i] == nodes[i];
      }
    }
  }

  /** `collectOpenSlots`: ask every reachable node for its markers; one that does not answer is skipped. */
  method CollectOpenSlots(sv: Servers, nodes: seq<NodeInfo>) returns (seen: set<int>)
    modifies sv`faults
    ensures sv.faults >= old(sv.faults)
    ensures seen <= OpenSlots(sv.slots, nodes)
    ensures sv.faults == old(sv.faults) ==> seen == OpenSlots(sv.slots, nodes)
  {
    seen := {};
    for i := 0 to |nodes|
      invariant sv.faults >= old(sv.faults)
      invariant seen <= OpenSlots(sv.slots, nodes[..i])
      invariant sv.faults == old(sv.faults) ==> seen == OpenSlots(sv.slots, nodes[..i])
    {
      assert nodes[..i + 1][..i] == nodes[..i];
      if Reachable(nodes[i]) {
        var ok, open := sv.OpenSlotsOf(nodes[i].id);
        seen := seen + open;
      }
    }
    assert nodes[..|nodes|] == nodes;
  }

  /** `ownerOf`: the first listed node one of whose ranges contains the slot. */
  function OwnerOf(nodes: seq<NodeInfo>, s: int): Option<NodeInfo> {
    if nodes == [] then None
    else if Covers(nodes[0].slots, s) then Some(nodes[0])
    else OwnerOf(nodes[1..], s)
  }

  /** It covers the slot and no node listed before it does; without one no listed node covers the slot. */
  lemma {:induction false} OwnerOfIs(nodes: seq<NodeInfo>, s: int)
    ensures OwnerOf(nodes, s).None? ==> forall i | 0 <= i < |nodes| :: !Covers(nodes[i].slots, s)
    ensures OwnerOf(nodes, s).Some? ==>
              exists i :: 0 <= i < |nodes| && nodes[i] == OwnerOf(nodes, s).value && Covers(nodes[i].slots, s)
                          && forall j | 0 <= j < i :: !Covers(nodes[j].slots, s)
  {
    hide Covers;
    if nodes != [] && !Covers(nodes[0].slots, s) {
      var rest := nodes[1..];
      OwnerOfIs(rest, s);
      assert forall j | 0 < j < |nodes| :: nodes[j] == rest[j - 1];
      if OwnerOf(rest, s).Some? {
        var i :| 0 <= i < |rest| && rest[i] == OwnerOf(rest, s).value && Covers(rest[i].slots, s)
                 && forall j | 0 <= j < i :: !Covers(rest[j].slots, s);
        assert nodes[i + 1] == rest[i];
      }
    }
  }

  /** The listing shows the slot under the master the seed names, and under nobody else. */
  ghost predicate ShowsOwner(nodes: seq<NodeInfo>, c: State, seed: NodeId, s: int) {
    forall i | 0 <= i < |nodes| :: Covers(nodes[i].slots, s) <==> SeedSees(c, seed, s, nodes[i].id)
  }

  /** RepairSlots works on the slot: the listing names an owner with an address. */
  predicate HasOwner(nodes: seq<NodeInfo>, s: int) {
    OwnerOf(nodes, s).Some? && OwnerOf(nodes, s).value.ip != ""
  }

  /** The ID of that owner ("" when there is none). */
  function OwnerID(nodes: seq<NodeInfo>, s: int): NodeId {
    if HasOwner(nodes, s) then OwnerOf(nodes, s).value.id else ""
  }

  /** The first listed node whose ranges contain the slot. */
  ghost predicate FirstCovering(nodes: seq<NodeInfo>, s: int, i: int) {
    0 <= i < |nodes| && Covers(nodes[i].slots, s) && forall j | 0 <= j < i :: !Covers(nodes[j].slots, s)
  }

  /** A slot is worked on exactly if the first listed node that covers it has an address, and for that node. */
  lemma HasOwnerIff(nodes: seq<NodeInfo>, s: int)
    ensures HasOwner(nodes, s) <==> exists i :: FirstCovering(nodes, s, i) && nodes[i].ip != ""
    ensures forall i | HasOwner(nodes, s) && FirstCovering(nodes, s, i) :: OwnerID(nodes, s) == nodes[i].id
  {
    hide Covers;
    OwnerOfIs(nodes, s);
    hide OwnerOf;
    if OwnerOf(nodes, s).Some? {
      var i :| 0 <= i < |nodes| && nodes[i] == OwnerOf(nodes, s).value && Covers(nodes[i].slots, s)
               && forall j | 0 <= j < i :: !Covers(nodes[j].slots, s);
      assert FirstCovering(nodes, s, i);
      assert forall j | FirstCovering(nodes, s, j) :: j == i;
    }
  }

  /** With such a listing, the owner RepairSlots works for is the master the seed names. */
  lemma OwnerIsSeeds(nodes: seq<NodeInfo>, c: State, seed: NodeId, s: int)
    requires s in c && seed in c[s] && c[s][seed].owner in c[s]
    requires ListsAll(nodes, c[s]) && ShowsOwner(nodes, c, seed, s)
    ensures HasOwner(nodes, s) && OwnerID(nodes, s) == c[s][seed].owner
  {
    hide Covers;
    OwnerOfIs(nodes, s);
    var o := c[s][seed].owner;
    var i :| 0 <= i < |nodes| && nodes[i].id == o && nodes[i].IsPrimary() && nodes[i].ip != "";
    assert SeedSees(c, seed, s, nodes[i].id) && Covers(nodes[i].slots, s);
    hide OwnerOf;
  }

  /** No slot has lost a copy of a key or a master. */
  ghost predicate AllHarmless(c0: State, c: State) {
    && c.Keys == c0.Keys
    && forall t | t in c0 :: c[t].Keys == c0[t].Keys && SameHeld(c0[t], c[t])
  }

  /** The slots in `done` have been repaired (cleanly, if `clean`), the others are as they were. */
  ghost predicate Repaired(c0: State, c: State, nodes: seq<NodeInfo>, done: set<int>, clean: bool) {
    && AllHarmless(c0, c)
    && (forall s | s in c0 && s !in done :: c[s] == c0[s])
    && (clean ==> forall s | s in c0 && s in done ::
                    HasOwner(nodes, s) && SlotRepaired(c0[s], c[s], nodes, OwnerID(nodes, s)))
  }

  /** The sweep finds the slot, all its masters are listed, and the listing shows the owner the seed names. */
  ghost predicate SeedLists(c: State, nodes: seq<NodeInfo>, seed: NodeId, s: int) {
    && s in c && s in OpenSlots(c, nodes) && seed in c[s] && c[s][seed].owner in c[s]
    && ListsAll(nodes, c[s]) && ShowsOwner(nodes, c, seed, s)
  }

  /** Every such slot is repaired towards the owner the seed names. */
  ghost predicate RepairedToSeeds(c0: State, c: State, nodes: seq<NodeInfo>)
    requires c.Keys == c0.Keys
  {
    forall seed, s | SeedLists(c0, nodes, seed, s) :: SlotRepaired(c0[s], c[s], nodes, c0[s][seed].owner)
  }

  lemma RepairsToSeeds(c0: State, c: State, nodes: seq<NodeInfo>)
    requires Repaired(c0, c, nodes, Repairing(OpenSlots(c0, nodes), nodes), true)
    ensures c.Keys == c0.Keys && RepairedToSeeds(c0, c, nodes)
  {
    hide SlotRepaired, OpenSlots, HasOwner, OwnerID, ListsAll, ShowsOwner, AllHarmless;
    RepairedKeys(c0, c, nodes, Repairing(OpenSlots(c0, nodes), nodes), true);
    forall seed, s | SeedLists(c0, nodes, seed, s)
      ensures SlotRepaired(c0[s], c[s], nodes, c0[s][seed].owner)
    {
      OwnerIsSeeds(nodes, c0, seed, s);
      assert s in Repairing(OpenSlots(c0, nodes), nodes);
    }
  }

  lemma RepairedStart(c: State, nodes: seq<NodeInfo>, clean: bool)
    ensures Repaired(c, c, nodes, {}, clean)
  {
  }

  lemma RepairedKeys(c0: State, c: State, nodes: seq<NodeInfo>, done: set<int>, clean: bool)
    requires Repaired(c0, c, nodes, done, clean)
    ensures c.Keys == c0.Keys
  {
  }

  lemma RepairedAnyway(c0: State, c: State, nodes: seq<NodeInfo>, done: set<int>, clean: bool)
    requires Repaired(c0, c, nodes, done, clean)
    ensures Repaired(c0, c, nodes, done, false)
  {
  }

  lemma RepairedNext(
    c0: State, c: State, c': State, nodes: seq<NodeInfo>, done: set<int>, s: int, clean: bool, still: bool)
    requires Repaired(c0, c, nodes, done, clean) && s in c && s !in done && HasOwner(nodes, s)
    requires Harmless(c, c', s) && (still ==> clean)
    requires still ==> SlotRepaired(c[s], c'[s], nodes, OwnerID(nodes, s))
    ensures Repaired(c0, c', nodes, done + {s}, still)
  {
    hide SlotRepaired, SameHeld, HasOwner, OwnerID;
    assert c[s] == c0[s];
    assert forall t | t in c0 && t != s :: c'[t] == c[t];
  }

  lemma OpenSlotsExist(c: State, nodes: seq<NodeInfo>)
    ensures OpenSlots(c, nodes) <= c.Keys
  {
    OpenSlotsIs(c, nodes);
  }

  /** The open slots with a listed owner: those RepairSlots works on. */
  function Repairing(open: set<int>, nodes: seq<NodeInfo>): set<int> {
    set s | s in open && HasOwner(nodes, s)
  }

  lemma NothingToRepair(nodes: seq<NodeInfo>)
    ensures Repairing({}, nodes) == {}
  {
  }

  lemma RepairingOneMore(open: set<int>, rest: set<int>, s: int, nodes: seq<NodeInfo>)
    requires s in rest && rest <= open
    ensures Repairing(open - (rest - {s}), nodes)
            == Repairing(open - rest, nodes) + if HasOwner(nodes, s) then {s} else {}
    ensures s !in Repairing(open - rest, nodes)
  {
  }

  lemma RepairingMonotone(a: set<int>, b: set<int>, nodes: seq<NodeInfo>)
    requires a <= b
    ensures Repairing(a, nodes) <= Repairing(b, nodes)
  {
  }

  /** Finalize every open slot the sweep finds. Whatever fails, no copy of any key is lost. If nothing fails, the
      slots that are open and have a listed owner are repaired (`SlotRepaired`) and the others stay as they were; with a
      listing that shows what the seed sees, each is repaired towards the master the seed names. */
  method RepairSlots(sv: Servers, listing: Option<seq<NodeInfo>>)
    returns (repaired: nat, err: bool, ghost done: set<int>)
    modifies sv
    ensures err <==> listing.None?
    ensures sv.faults >= old(sv.faults) && repaired == |done|
    ensures err ==> sv.slots == old(sv.slots) && done == {}
    ensures !err ==> && done <= Repairing(OpenSlots(old(sv.slots), listing.value), listing.value)
                     && Repaired(old(sv.slots), sv.slots, listing.value, done, false)
    ensures !err && sv.faults == old(sv.faults) ==>
              && done == Repairing(OpenSlots(old(sv.slots), listing.value), listing.value)
              && Repaired(old(sv.slots), sv.slots, listing.value, done, true)
              && sv.slots.Keys == old(sv.slots).Keys && RepairedToSeeds(old(sv.slots), sv.slots, listing.value)
  {
    hide *;
    repaired, err, done := 0, listing.None?, {};
    if err {
      return;
    }
    var nodes := listing.value;
    var open := CollectOpenSlots(sv, nodes);
    OpenSlotsExist(sv.slots, nodes);
    ghost var f, clean := sv.faults, sv.faults == old(sv.faults);
    var rest := open;
    RepairedStart(sv.slots, nodes, clean);
    assert Repairing({}, nodes) == {} by { NothingToRepair(nodes); }
    assert open - rest == {};
    while rest != {}
      invariant rest <= open && sv.faults >= f && sv.slots.Keys == old(sv.slots).Keys
      invariant clean == (sv.faults == old(sv.faults))
      invariant done == Repairing(open - rest, nodes) && repaired == |done|
      invariant Repaired(old(sv.slots), sv.slots, nodes, done, clean)
      decreases |rest|
    {
      var slot := PickAny(rest);
      RepairingOneMore(open, rest, slot, nodes);
      rest := rest - {slot};
      if HasOwner(nodes, slot) {
        ghost var c := sv.slots;
        RepairSlot(sv, slot, nodes, OwnerID(nodes, slot));
        RepairedNext(old(sv.slots), c, sv.slots, nodes, done, slot, clean, sv.faults == old(sv.faults));
        RepairedKeys(old(sv.slots), sv.slots, nodes, done + {slot}, sv.faults == old(sv.faults));
        clean := sv.faults == old(sv.faults);
        done := done + {slot};
        repaired := repaired + 1;
      }
    }
    assert open - rest == open;
    RepairingMonotone(open, OpenSlots(old(sv.slots), nodes), nodes);
    RepairedAnyway(old(sv.slots), sv.slots, nodes, done, clean);
    if clean {
      RepairsToSeeds(old(sv.slots), sv.slots, nodes);
    }
  }

  /** After a repair in which nothing fails and every open slot has a listed owner, a second repair
      finds nothing to do. */
  lemma SecondRepairIsIdle(c0: State, c: State, nodes: seq<NodeInfo>)
    requires Repaired(c0, c, nodes, Repairing(OpenSlots(c0, nodes), nodes), true)
    requires forall s | s in OpenSlots(c0, nodes) ::
               s in c0 && HasOwner(nodes, s) && OwnerID(nodes, s) in c0[s] && ListsAll(nodes, c0[s])
    ensures forall s :: s !in OpenSlots(c, nodes)
  {
    hide ListsAll, SameHeld, Settled, Repairable, HoldsAll, FixOn, Accepts, HasOwner, OwnerID, Reachable, Leaves;
    OpenSlotsIs(c, nodes);
    OpenSlotsIs(c0, nodes);
    forall s, i | 0 <= i < |nodes| && Reachable(nodes[i])
      ensures s !in OpenAt(c, nodes[i].id)
    {
      if s in OpenSlots(c0, nodes) {
        assert s in Repairing(OpenSlots(c0, nodes), nodes);
        assert SlotRepaired(c0[s], c[s], nodes, OwnerID(nodes, s));
        LeavesUnmarked(c0[s], c[s], OwnerID(nodes, s));
      } else if s in c {
        assert s !in OpenAt(c0, nodes[i].id) && c[s] == c0[s];
      }
    }
  }

  // ---- recovering from an interrupted MoveSlots ----

  /** A slot whose seed already follows the target is always repairable. */
  lemma RepairableAtTarget(col: Column, seed: NodeId, src: NodeId, dst: NodeId)
    requires InFlight(col, src, dst) && seed in col && col[seed].owner == dst
    ensures Repairable(col, dst)
  {
    assert forall n | n in col && n != dst :: col[n].keys == map[];
  }

  /** Sent back to the source, it is repairable exactly when the target holds no key: a source that redirects clients
      to the target, or follows it, takes no key back. */
  lemma RepairableAtSource(col: Column, src: NodeId, dst: NodeId)
    requires InFlight(col, src, dst)
    ensures Repairable(col, src) <==> col[dst].keys == map[]
    ensures col[dst].keys != map[] ==> !Accepts(col, src)
  {
    if col[dst].keys == map[] {
      assert NoneShared(col);
    }
  }

  /** It is the source's MIGRATING marker that stands in the way: STABLE on the source first, and the slot would be
      repairable exactly when the target holds at most 1000 keys, none of which the source still has, and the source,
      unless there is nothing to bring back, still counts itself owner. */
  lemma RepairableOnceStable(col: Column, src: NodeId, dst: NodeId)
    requires InFlight(col, src, dst)
    ensures SetStable(col, src).Some?
    ensures Repairable(SetStable(col, src).value, src) <==>
            && |col[dst].keys| <= 1000
            && (forall k :: !(k in col[src].keys && k in col[dst].keys))
            && (col[src].owner == src || col[dst].keys == map[])
  {
    var stable := SetStable(col, src).value;
    forall k
      ensures Shared(stable, k) <==> k in col[src].keys && k in col[dst].keys
    {
      if k in col[src].keys && k in col[dst].keys {
        assert src in stable && dst in stable && k in stable[src].keys && k in stable[dst].keys;
      }
    }
    assert col[dst].keys == map[] ==> |col[dst].keys| == 0;
    assert Repairable(stable, src) <==> NoneShared(stable) && Fetchable(stable, dst, src);
  }

  /** Some master has a marker for the slot. */
  ghost predicate Marked(col: Column) {
    exists n :: n in col && (col[n].importing.Some? || col[n].migrating.Some?)
  }

  lemma UnmarkedIsNotOpen(c: State, s: int, nodes: seq<NodeInfo>)
    requires s in c && !Marked(c[s])
    ensures s !in OpenSlots(c, nodes)
  {
    OpenSlotsIs(c, nodes);
  }

  /** A slot on its way without a marker is at rest exactly when all masters name the same owner. */
  lemma UnmarkedSettledIff(col: Column, src: NodeId, dst: NodeId, o: NodeId)
    requires InFlight(col, src, dst) && !Marked(col) && o in {src, dst}
    ensures Settled(col, o) <==> forall n | n in col :: col[n].owner == o
    ensures Settled(col, o) ==> col[o].keys == Visible(col, src, dst)
  {
    assert forall n | n in col :: col[n].importing == None && col[n].migrating == None;
  }

  /** A drained slot with keys whose masters are about to be told. */
  ghost predicate AboutToTell(col: Column, src: NodeId, dst: NodeId) {
    Drained(col, src, dst) && col[dst].keys != map[] && forall n | n in col :: col[n].owner == src
  }

  /** The repair finishes what was stopped: the slot is at rest already, or the sweep finds it and it is repairable. */
  ghost predicate Finishes(col: Column, seed: NodeId, dst: NodeId)
    requires seed in col
  {
    Settled(col, dst) || (Marked(col) && Repairable(col, col[seed].owner))
  }

  lemma StopMarked(col: Column, ms: seq<NodeId>, src: NodeId, dst: NodeId)
    requires AboutToTell(col, src, dst)
    ensures Marked(AssignOn(col, ms, dst)) <==> !(src in ms && dst in ms)
    ensures Settled(AssignOn(col, ms, dst), dst) <==> forall n | n in col :: n in ms
  {
    var stopped := AssignOn(col, ms, dst);
    assert col[src].migrating == Some(dst) && col[dst].importing == Some(src);
    assert stopped[src].migrating.Some? <==> src !in ms;
    assert stopped[dst].importing.Some? <==> dst !in ms;
    assert forall n | n in col :: stopped[n].owner == dst <==> n in ms;
    if forall n | n in col :: n in ms {
      AssignOnAll(col, ms, src, dst);
    }
  }

  lemma StopRepairable(col: Column, ms: seq<NodeId>, seed: NodeId, src: NodeId, dst: NodeId)
    requires AboutToTell(col, src, dst) && seed in col
    ensures Repairable(AssignOn(col, ms, dst), AssignOn(col, ms, dst)[seed].owner) <==> seed in ms
  {
    var stopped := AssignOn(col, ms, dst);
    AssignOnAdvances(col, ms, src, dst);
    assert stopped[dst].keys == col[dst].keys;
    hide Keeps, Repairable;
    if seed in ms {
      RepairableAtTarget(stopped, seed, src, dst);
    } else {
      RepairableAtSource(stopped, src, dst);
    }
  }

  /** All masters have been told, or the seed has and not both source and target. */
  ghost predicate GoodStop(col: Column, told: seq<NodeId>, seed: NodeId, src: NodeId, dst: NodeId) {
    (forall n | n in col :: n in told) || (seed in told && !(src in told && dst in told))
  }

  /** Stopped when the masters `ms` have been told, the move is finished by a repair exactly if all masters are among
      them, or the seed is and not both source and target: with both told no marker is left for the sweep to find. */
  lemma FinishesIff(col: Column, ms: seq<NodeId>, seed: NodeId, src: NodeId, dst: NodeId)
    requires AboutToTell(col, src, dst) && seed in col
    ensures Finishes(AssignOn(col, ms, dst), seed, dst) <==> GoodStop(col, ms, seed, src, dst)
  {
    StopMarked(col, ms, src, dst);
    StopRepairable(col, ms, seed, src, dst);
    hide Marked, Repairable, Settled, AssignOn;
  }

  /** Whoever is told of source and target second is told last of all masters. */
  ghost predicate PairLast(col: Column, ms: seq<NodeId>, src: NodeId, dst: NodeId) {
    forall j | 0 <= j <= |ms| && src in ms[..j] && dst in ms[..j] :: forall n | n in col :: n in ms[..j]
  }

  lemma GoodStops(col: Column, ms: seq<NodeId>, seed: NodeId, src: NodeId, dst: NodeId)
    requires seed in col && src in col && dst in col && src != dst && ms != []
    ensures (forall j | 1 <= j <= |ms| :: GoodStop(col, ms[..j], seed, src, dst))
            <==> ms[0] == seed && PairLast(col, ms, src, dst)
  {
    assert ms[..1] == [ms[0]];
    assert forall j | 1 <= j <= |ms| :: ms[0] == ms[..j][0];
    if forall j | 1 <= j <= |ms| :: GoodStop(col, ms[..j], seed, src, dst) {
      assert GoodStop(col, ms[..1], seed, src, dst);
      assert seed in [ms[0]];
      forall j | 0 <= j <= |ms| && src in ms[..j] && dst in ms[..j]
        ensures forall n | n in col :: n in ms[..j]
      {
        assert j >= 1 ==> GoodStop(col, ms[..j], seed, src, dst);
      }
    }
  }

  /** Before anybody is told no repair finishes the move. From then on one does wherever it stops, if and only if the
      seed is told first and source and target are told last. */
  lemma FinishesAtEveryStop(col: Column, ms: seq<NodeId>, seed: NodeId, src: NodeId, dst: NodeId)
    requires AboutToTell(col, src, dst) && seed in col && ms != []
    ensures !Finishes(col, seed, dst)
    ensures (forall j | 1 <= j <= |ms| :: Finishes(AssignOn(col, ms[..j], dst), seed, dst))
            <==> ms[0] == seed && PairLast(col, ms, src, dst)
  {
    assert src in col && dst in col && src != dst;
    forall j | 1 <= j <= |ms|
      ensures seed in AssignOn(col, ms[..j], dst)
    {
      AssignKeys(col, ms[..j], dst);
    }
    hide Finishes, AssignOn, PairLast, AboutToTell, GoodStop;
    NoStopYet(col, seed, src, dst);
    GoodStops(col, ms, seed, src, dst);
    forall j | 1 <= j <= |ms|
      ensures Finishes(AssignOn(col, ms[..j], dst), seed, dst) <==> GoodStop(col, ms[..j], seed, src, dst)
    {
      FinishesIff(col, ms[..j], seed, src, dst);
    }
  }

  lemma AssignKeys(col: Column, ms: seq<NodeId>, dst: NodeId)
    ensures AssignOn(col, ms, dst).Keys == col.Keys
  {
  }

  lemma NoStopYet(col: Column, seed: NodeId, src: NodeId, dst: NodeId)
    requires AboutToTell(col, src, dst) && seed in col
    ensures !Finishes(col, seed, dst)
  {
    assert AssignOn(col, [], dst) == col;
    FinishesIff(col, [], seed, src, dst);
  }

  /** Masters told in the order target, source, third, with the target as seed: stopped before the third is told, the
      slot is repairable, but nothing marks it, so that no sweep finds it and the third master stays behind. */
  lemma ThirdStaysBehind()
    ensures var col: Column := map["a" := View("a", None, Some("b"), map[]),
                                   "b" := View("a", Some("a"), None, map["k" := "v"]),
                                   "x" := View("a", None, None, map[])];
            var stopped := AssignOn(col, ["b", "a"], "b");
            && AboutToTell(col, "a", "b") && ["b", "a"] == ["b", "a", "x"][..2]
            && Repairable(stopped, stopped["b"].owner) && stopped["x"].owner == "a" && !Settled(stopped, "b")
            && forall nodes :: 0 !in OpenSlots(map[0 := stopped], nodes)
  {
    var col: Column := map["a" := View("a", None, Some("b"), map[]),
                           "b" := View("a", Some("a"), None, map["k" := "v"]), "x" := View("a", None, None, map[])];
    var told := ["b", "a"];
    assert "k" in col["b"].keys;
    StopMarked(col, told, "a", "b");
    StopRepairable(col, told, "b", "a", "b");
    var stopped := AssignOn(col, told, "b");
    hide AssignOn, Repairable, OpenSlots;
    forall nodes
      ensures 0 !in OpenSlots(map[0 := stopped], nodes)
    {
      UnmarkedIsNotOpen(map[0 := stopped], 0, nodes);
    }
  }

  /** The shortcut for a slot without keys sets no marker, so that no sweep finds it wherever it stops. It is at rest
      exactly if nobody or everybody was told, and in limbo exactly if the source was told and the target was not. */
  lemma ShortcutStops(col: Column, ms: seq<NodeId>, src: NodeId, dst: NodeId, nodes: seq<NodeInfo>)
    requires Settled(col, src) && col[src].keys == map[] && dst in col && src != dst
    ensures var stopped := AssignOn(col, ms, dst);
            && 0 !in OpenSlots(map[0 := stopped], nodes)
            && (Settled(stopped, src) <==> forall n | n in col :: n !in ms)
            && (Settled(stopped, dst) <==> forall n | n in col :: n in ms)
            && (Limbo(stopped, src, dst) <==> src in ms && dst !in ms)
  {
    var stopped := AssignOn(col, ms, dst);
    assert !Marked(stopped);
    UnmarkedIsNotOpen(map[0 := stopped], 0, nodes);
    AssignOnAdvances(col, ms, src, dst);
    hide Keeps;
    UnmarkedSettledIff(stopped, src, dst, src);
    UnmarkedSettledIff(stopped, src, dst, dst);
    assert forall n | n in col :: stopped[n].owner == (if n in ms then dst else src);
  }

  /** A slot without keys told only to its source: nobody can read it, and no repair looks at it. */
  lemma EmptySlotStaysInLimbo()
    ensures var col: Column := map["a" := View("a", None, None, map[]), "b" := View("a", None, None, map[])];
            var stopped := AssignOn(col, ["a"], "b");
            && Settled(col, "a") && Limbo(stopped, "a", "b") && !ReadsResolve(stopped, "a", "b")
            && forall nodes :: 0 !in OpenSlots(map[0 := stopped], nodes)
  {
    var col: Column := map["a" := View("a", None, None, map[]), "b" := View("a", None, None, map[])];
    var stopped := AssignOn(col, ["a"], "b");
    AssignOnAdvances(col, ["a"], "a", "b");
    assert InFlight(stopped, "a", "b");
    forall nodes
      ensures Limbo(stopped, "a", "b") && 0 !in OpenSlots(map[0 := stopped], nodes)
    {
      ShortcutStops(col, ["a"], "a", "b", nodes);
    }
    hide Keeps, InFlight, AssignOn, OpenSlots, ReadsResolve;
    ShortcutStops(col, ["a"], "a", "b", []);
    ReadableUnlessLimbo(stopped, "a", "b");
  }

  /** What a repair towards the source does while the target has keys: the slot is unmarked, the keys stay where they
      are, and one the source does not have is found only by asking a target that still counts itself owner. */
  lemma RepairHidesKeys(
    col: Column, after: Column, nodes: seq<NodeInfo>, src: NodeId, dst: NodeId, at: NodeId, k: string)
    requires InFlight(col, src, dst) && ListsAll(nodes, col) && at in col && SlotRepaired(col, after, nodes, src)
    requires k in col[dst].keys && k !in col[src].keys
    ensures after.Keys == col.Keys && !Marked(after)
    ensures after[src].keys == col[src].keys && after[dst].keys == col[dst].keys
    ensures Route(after, at, k, false, 4) == Some(if at == dst && col[dst].owner == dst then dst else src)
  {
    ListsAllIds(nodes, col, src);
    RepairableAtSource(col, src, dst);
    hide ListsAll, Primaries, Repairable, HoldsAll, Settled, Leaves, SameHeld;
    assert after == FixOn(col, Primaries(nodes), src);
    assert Route(after, src, k, false, 3) == Some(src);
  }

  /** A slot with one key after the handshake and the MIGRATE: stopped there, the move is in that case. */
  lemma StrandsKey()
    ensures var col: Column := map["a" := View("a", None, None, map["k" := "v"]), "b" := View("a", None, None, map[])];
            && Settled(col, "a") && SetImporting(col, "b", "a").Some?
            && var marked := SetImporting(col, "b", "a").value;
            && SetMigrating(marked, "a", "b").Some?
            && var both := SetMigrating(marked, "a", "b").value;
            && Sends(both, "a") && Accepts(both, "b")
            && var stopped := Transfer(both, "a", "b", {"k"}, {"k"});
               InFlight(stopped, "a", "b") && "k" in stopped["b"].keys && "k" !in stopped["a"].keys
  {
  }

  /** A drained slot with one key, and masters that are told in the order source, target: stopped in between, the
      pair is in limbo, and a seed not told yet names the source. */
  lemma StopsInLimbo()
    ensures var col: Column :=
              map["a" := View("a", None, Some("b"), map[]), "b" := View("a", Some("a"), None, map["k" := "v"])];
            && Drained(col, "a", "b") && Precedes(["a", "b"], "a", "b")
            && InFlight(AssignOn(col, ["a"], "b"), "a", "b") && Limbo(AssignOn(col, ["a"], "b"), "a", "b")
            && "k" in Visible(AssignOn(col, ["a"], "b"), "a", "b")
  {
    var col: Column :=
      map["a" := View("a", None, Some("b"), map[]), "b" := View("a", Some("a"), None, map["k" := "v"])];
    assert ["a", "b"][0] == "a" && ["a", "b"][..1] == ["a"];
    AssignOnAdvances(col, ["a"], "a", "b");
    hide Keeps;
  }

  // ---- an interrupted move, then a repair ----

  /** The listing has the node, and the sweep asks it. */
  ghost predicate Asked(nodes: seq<NodeInfo>, id: NodeId) {
    exists i :: 0 <= i < |nodes| && nodes[i].id == id && Reachable(nodes[i])
  }

  /** Both masters of the pair name one of them owner, and that one has all the keys. */
  ghost predicate Agreed(col: Column, src: NodeId, dst: NodeId, keys: Keyspace) {
    && src in col && dst in col && col[src].owner == col[dst].owner
    && ((col[src].owner == src && col[src].keys == keys) || (col[src].owner == dst && col[dst].keys == keys))
  }

  /** No silent half-move: in every state a run can stop in, a slot with keys that was on its way is found open by
      the sweep, or the pair agrees on one owner that holds every key. */
  lemma HalfMovesShow(
    c0: State, c: State, list: seq<int>, src: NodeId, dst: NodeId, nodes: seq<NodeInfo>, t: int)
    requires AllWithin(c0, c, list, src, dst) && t in c0 && InFlight(c0[t], src, dst)
    requires Asked(nodes, src) && Asked(nodes, dst) && Visible(c0[t], src, dst) != map[]
    ensures t in OpenSlots(c, nodes) || Agreed(c[t], src, dst, Visible(c0[t], src, dst))
  {
    hide Reachable, OpenSlots;
    var col := c[t];
    assert InFlight(col, src, dst) && Visible(col, src, dst) == Visible(c0[t], src, dst);
    HalfMoveIsMarked(col, src, dst);
    OpenSlotsIs(c, nodes);
    if col[src].migrating.Some? {
      assert t in OpenAt(c, src);
    }
    if col[dst].importing.Some? {
      assert t in OpenAt(c, dst);
    }
  }

  /** The same of every state of a run. */
  lemma NoSilentHalfMove(
    c0: State, c: State, trace: seq<State>, i: nat, list: seq<int>, done: nat, touched: nat,
    ms: seq<NodeId>, src: NodeId, dst: NodeId, nodes: seq<NodeInfo>, t: int)
    requires done <= touched <= |list| && Run(c0, c, trace, i, list, done, touched, ms, src, dst)
    requires t in c0 && InFlight(c0[t], src, dst) && Visible(c0[t], src, dst) != map[]
    requires Asked(nodes, src) && Asked(nodes, dst)
    ensures t in OpenSlots(c, nodes) || Agreed(c[t], src, dst, Visible(c0[t], src, dst))
    ensures forall j | i <= j < |trace| ::
              t in OpenSlots(trace[j], nodes) || Agreed(trace[j][t], src, dst, Visible(c0[t], src, dst))
  {
    hide Agreed, OpenSlots, Asked, AllMoved, AllHandedOver, AlwaysReadable, AllInterrupted, AllWithin;
    HalfMovesShow(c0, c, list[..touched], src, dst, nodes, t);
    forall j | i <= j < |trace|
      ensures t in trace[j]
      ensures t in OpenSlots(trace[j], nodes) || Agreed(trace[j][t], src, dst, Visible(c0[t], src, dst))
    {
      WithinKeys(c0, trace[j], list[..touched], src, dst);
      HalfMovesShow(c0, trace[j], list[..touched], src, dst, nodes, t);
    }
  }

  lemma WithinKeys(c0: State, c: State, list: seq<int>, src: NodeId, dst: NodeId)
    requires AllWithin(c0, c, list, src, dst)
    ensures c.Keys == c0.Keys
  {
  }
}
