/** The masters as the operator reaches them: commands that a server may refuse and the network may lose. */
module Masters {
  import opened Wrappers
  import opened Cluster
  import opened SlotState

  /** Every slot's column: the whole of what the masters keep. */
  type State = map<int, Column>

  /** A command on slot `s` was sent: it took effect or not, the server may have refused it, and the
      reply may have been lost; `ok` only after it took effect. */
  ghost predicate Delivered(before: State, after: State, s: int, effect: Option<Column>, ok: bool) {
    && (after == before || (effect.Some? && s in before && after == before[s := effect.value]))
    && (ok ==> effect.Some? && s in before && after == before[s := effect.value])
  }

  /** `keys` is what GETKEYSINSLOT with this count may return for the keyspace. */
  ghost predicate Fetched(m: Keyspace, count: nat, keys: seq<string>) {
    && (forall i, j | 0 <= i < j < |keys| :: keys[i] != keys[j])
    && (forall k | k in keys :: k in m)
    && |keys| == if |m| < count then |m| else count
  }

  /** The slots master `at` marks as migrating or importing. */
  function OpenAt(c: State, at: NodeId): set<int> {
    set s | s in c && at in c[s] && (c[s][at].importing.Some? || c[s][at].migrating.Some?)
  }

  /** The cluster without master `d`. */
  function Without(c: State, d: NodeId): State {
    map s | s in c :: c[s] - {d}
  }

  /** The seed names `owner` as the owner of slot `s`. */
  predicate SeedSees(c: State, seed: NodeId, s: int, owner: NodeId) {
    s in c && seed in c[s] && c[s][seed].owner == owner
  }

  /** The target takes every key of `ks` that `at` has. */
  predicate RestoresAll(col: Column, at: NodeId, to: NodeId, ks: seq<string>)
    requires at in col
  {
    forall k | k in ks && k in col[at].keys :: Restores(col, to, k)
  }

  lemma CoversOneMore(ranges: seq<SlotRange>, s: int)
    ensures forall x :: Covers(ranges + [SlotRange(s, s)], x) <==> Covers(ranges, x) || x == s
  {
    var more := ranges + [SlotRange(s, s)];
    assert more[|ranges|] == SlotRange(s, s) && forall i | 0 <= i < |ranges| :: more[i] == ranges[i];
  }

  class Servers {
    var slots: State
    /** The state after every command sent so far: where an operator that stops may leave the cluster. */
    ghost var trace: seq<State>
    /** How many commands or replies the network has lost so far. */
    ghost var faults: nat

    constructor (initial: State)
      ensures slots == initial && trace == [] && faults == 0
    {
      slots := initial;
      trace := [];
      faults := 0;
    }

    /** Any CLUSTER SETSLOT command; `effect` is what its execution does to the slot's column. */
    method Send(s: int, effect: Option<Column>) returns (ok: bool)
      modifies this
      ensures Delivered(old(slots), slots, s, effect, ok)
      ensures trace == old(trace) + [slots]
      ensures faults >= old(faults)
      ensures effect.Some? && s in old(slots) && !ok ==> faults > old(faults)
    {
      var executed: bool, answered: bool := *, *;
      ok := false;
      if executed && effect.Some? && s in slots {
        slots := slots[s := effect.value];
        ok := answered;
      }
      if !ok && effect.Some? {
        faults := faults + 1;
      }
      trace := trace + [slots];
    }

    /** A master's StatefulSet and volumes are deleted: it is gone with all it holds. */
    method Remove(d: NodeId)
      modifies this
      ensures slots == Without(old(slots), d) && trace == old(trace) + [slots] && faults == old(faults)
    {
      slots := Without(slots, d);
      trace := trace + [slots];
    }

    /** The slots `seed` lists under `id` in its CLUSTER NODES reply, in ascending order. */
    method SlotsUnder(seed: NodeId, id: NodeId) returns (ok: bool, ranges: seq<SlotRange>)
      modifies this`faults
      ensures faults >= old(faults) && (!ok ==> faults > old(faults) && ranges == [])
      ensures ok ==> Ascending(ranges) && forall s :: Covers(ranges, s) <==> SeedSees(slots, seed, s, id)
    {
      ok, ranges := *, [];
      if !ok {
        faults := faults + 1;
        return;
      }
      var rest := slots.Keys;
      while rest != {}
        invariant rest <= slots.Keys && faults == old(faults)
        invariant forall i, x | 0 <= i < |ranges| && x in rest :: ranges[i].end < x
        invariant Ascending(ranges)
        invariant forall s :: Covers(ranges, s) <==> SeedSees(slots, seed, s, id) && s !in rest
        decreases |rest|
      {
        var s := SmallestOf(rest);
        rest := rest - {s};
        if seed in slots[s] && slots[s][seed].owner == id {
          CoversOneMore(ranges, s);
          ranges := ranges + [SlotRange(s, s)];
        }
      }
    }

    /** The markers on `at`'s own line of its CLUSTER NODES reply. */
    method OpenSlotsOf(at: NodeId) returns (ok: bool, open: set<int>)
      modifies this`faults
      ensures faults >= old(faults)
      ensures if ok then open == OpenAt(slots, at) else open == {} && faults > old(faults)
    {
      ok, open := *, {};
      if ok {
        open := OpenAt(slots, at);
      } else {
        faults := faults + 1;
      }
    }

    /** CLUSTER GETKEYSINSLOT s count on `at`. */
    method GetKeysInSlot(s: int, at: NodeId, count: nat) returns (ok: bool, keys: seq<string>)
      modifies this`faults
      ensures ok ==> s in slots && at in slots[s] && Fetched(slots[s][at].keys, count, keys)
      ensures faults >= old(faults)
      ensures s in slots && at in slots[s] && !ok ==> faults > old(faults)
      ensures !ok ==> keys == []
    {
      ok, keys := *, [];
      if s !in slots || at !in slots[s] || !ok {
        faults := faults + 1;
        return false, [];
      }
      var rest := slots[s][at].keys;
      while |keys| < count && rest != map[]
        invariant |keys| <= count && |keys| + |rest| == |slots[s][at].keys|
        invariant forall i, j | 0 <= i < j < |keys| :: keys[i] != keys[j]
        invariant forall k | k in keys :: k in slots[s][at].keys && k !in rest
        invariant forall k | k in rest :: k in slots[s][at].keys
        decreases |rest|
      {
        var k :| k in rest.Keys;
        assert (rest - {k}).Keys == rest.Keys - {k};
        assert |rest| == |rest.Keys| && |rest - {k}| == |(rest - {k}).Keys|;
        rest := rest - {k};
        keys := keys + [k];
      }
    }

    /** MIGRATE to REPLACE KEYS ks, run on `at`. An error can leave any part of the keys the target takes copied, and
        any part of those deleted. */
    method MigrateReplace(s: int, at: NodeId, to: NodeId, ks: seq<string>)
      returns (ok: bool, ghost copied: set<string>, ghost deleted: set<string>)
      requires s in slots && at in slots[s]
      modifies this
      ensures trace == old(trace) + [slots]
      ensures faults >= old(faults)
      ensures !Sends(old(slots)[s], at) || to !in old(slots)[s] || at == to ==> !ok && slots == old(slots)
      ensures (Sends(old(slots)[s], at) && to in old(slots)[s] && at != to && RestoresAll(old(slots)[s], at, to, ks)
               && !ok) ==> faults > old(faults)
      ensures !ok ==> slots == old(slots) ||
                      (to in old(slots)[s] && at != to
                       && deleted <= copied && (forall k | k in copied :: k in ks && Restores(old(slots)[s], to, k))
                       && slots == old(slots)[s := Transfer(old(slots)[s], at, to, copied, deleted)])
      ensures ok ==> to in old(slots)[s] && at != to && RestoresAll(old(slots)[s], at, to, ks)
                     && copied == deleted == (set k | k in ks)
                     && slots == old(slots)[s := Transfer(old(slots)[s], at, to, copied, deleted)]
    {
      ok, copied, deleted := false, {}, {};
      if Sends(slots[s], at) && to in slots[s] && at != to {
        var done: nat, left: nat := *, *;
        var reply: bool := *;
        var all := RestoresAll(slots[s], at, to, ks);
        if left <= done <= |ks| {
          ok := reply && all;
          var c := if ok then set k | k in ks else set k | k in ks[..done] && Restores(slots[s], to, k);
          var d := if ok then set k | k in ks else set k | k in ks[..left] && Restores(slots[s], to, k);
          copied, deleted := c, d;
          slots := slots[s := Transfer(slots[s], at, to, c, d)];
        }
        if !ok && all {
          faults := faults + 1;
        }
      }
      trace := trace + [slots];
    }

    /** MIGRATE of one key without REPLACE, run on `at`; its reply is not looked at. Cut short, it may have
        copied the key without deleting it. */
    method Migrate(s: int, at: NodeId, to: NodeId, k: string)
      requires s in slots
      modifies this
      ensures trace == old(trace) + [slots]
      ensures faults >= old(faults)
      ensures faults == old(faults) ==> slots == old(slots)[s := MigrateKey(old(slots)[s], at, to, k)]
      ensures || slots == old(slots)
              || slots == old(slots)[s := MigrateKey(old(slots)[s], at, to, k)]
              || (Migrates(old(slots)[s], at, to, k) && slots == old(slots)[s := CopyKey(old(slots)[s], at, to, k)])
    {
      var copied: bool, deleted: bool := *, *;
      if copied && deleted {
        slots := slots[s := MigrateKey(slots[s], at, to, k)];
      } else {
        faults := faults + 1;
        if copied && Migrates(slots[s], at, to, k) {
          slots := slots[s := CopyKey(slots[s], at, to, k)];
        }
      }
      trace := trace + [slots];
    }
  }
}
