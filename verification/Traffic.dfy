/** The mover's treatment of one slot as a program, with clients at work between any two of its commands. Each of its
    runs is a run of the state machine of `Writes`, so that what is proved there holds at every state. */
module Traffic {
  import opened Wrappers
  import opened SlotState
  import opened Masters
  import opened Mover
  import opened Routing
  import opened Writes

  ghost function Last(ws: seq<World>): World
    requires ws != []
  {
    ws[|ws| - 1]
  }

  /** `ws` is a run from a slot on its way to what the masters have now. */
  ghost predicate Tracks(c: State, s: int, ws: seq<World>, src: NodeId, dst: NodeId) {
    s in c && ws != [] && IsRun(ws, src, dst) && Inv(ws[0], src, dst) && Last(ws).col == c[s]
  }

  lemma TracksInv(c: State, s: int, ws: seq<World>, src: NodeId, dst: NodeId)
    requires Tracks(c, s, ws, src, dst)
    ensures Inv(Last(ws), src, dst) && ReadsAcked(Last(ws))
  {
    WritesSurvive(ws, src, dst, |ws| - 1);
  }

  lemma TracksOn(c: State, c': State, s: int, ws: seq<World>, w': World, src: NodeId, dst: NodeId)
    requires Tracks(c, s, ws, src, dst) && Step(Last(ws), w', src, dst) && s in c' && w'.col == c'[s]
    ensures Tracks(c', s, ws + [w'], src, dst) && Last(ws + [w']) == w' && ws <= ws + [w']
  {
    hide Step, Inv;
    var more := ws + [w'];
    forall i | 0 <= i < |more| - 1
      ensures Step(more[i], more[i + 1], src, dst)
    {
      if i < |ws| - 1 {
        assert Step(ws[i], ws[i + 1], src, dst);
      }
    }
  }

  /** What clients leave alone: the other slots, owners and markers; and, while keys move, the source gets none. */
  ghost predicate Served(c: State, c': State, s: int, moving: bool, src: NodeId) {
    && c'.Keys == c.Keys && s in c && (forall t | t in c && t != s :: c'[t] == c[t]) && SameMarks(c[s], c'[s])
    && (moving && src in c[s] ==> c'[s][src].keys.Keys <= c[s][src].keys.Keys)
  }

  lemma ServedOn(a: State, b: State, c: State, s: int, moving: bool, src: NodeId)
    requires Served(a, b, s, moving, src) && Served(b, c, s, moving, src)
    ensures Served(a, c, s, moving, src)
  {
  }

  lemma ServedNone(c: State, s: int, moving: bool, src: NodeId)
    requires s in c
    ensures Served(c, c, s, moving, src)
  {
  }

  lemma ClientSets(
    c: State, s: int, ws: seq<World>, src: NodeId, dst: NodeId, at: NodeId, k: string, v: string, hops: nat)
    requires Tracks(c, s, ws, src, dst) && !Exposed(c[s], Last(ws).phase.Telling?, src, dst)
    requires Route(c[s], at, k, false, hops).Some? && Route(c[s], at, k, false, hops).value in c[s]
    ensures var c' := c[s := SetKey(c[s], Route(c[s], at, k, false, hops).value, k, v)];
            var w' := World(c'[s], Last(ws).acked[k := v], Last(ws).phase);
            Tracks(c', s, ws + [w'], src, dst) && Served(c, c', s, Last(ws).phase.Moving?, src)
  {
    hide Inv, ReadsAcked, Exposed, IsRun, MoverStep, DelStep;
    var w := Last(ws);
    var c' := c[s := SetKey(c[s], Route(c[s], at, k, false, hops).value, k, v)];
    var w' := World(c'[s], w.acked[k := v], w.phase);
    TracksInv(c, s, ws, src, dst);
    assert SetStep(w, w', at, k, v, hops);
    SetKeeps(w, w', src, dst, at, k, v, hops);
    hide SetKey, Route, SetStep;
    TracksOn(c, c', s, ws, w', src, dst);
  }

  lemma ClientDels(c: State, s: int, ws: seq<World>, src: NodeId, dst: NodeId, at: NodeId, k: string, hops: nat)
    requires Tracks(c, s, ws, src, dst) && !Doubled(c[s], k, src, dst)
    requires Route(c[s], at, k, false, hops).Some? && Route(c[s], at, k, false, hops).value in c[s]
    ensures var c' := c[s := DelKey(c[s], Route(c[s], at, k, false, hops).value, k)];
            var w' := World(c'[s], Last(ws).acked - {k}, Last(ws).phase);
            Tracks(c', s, ws + [w'], src, dst) && Served(c, c', s, Last(ws).phase.Moving?, src)
  {
    hide Inv, ReadsAcked, Exposed, Doubled, IsRun, MoverStep, SetStep;
    var w := Last(ws);
    var c' := c[s := DelKey(c[s], Route(c[s], at, k, false, hops).value, k)];
    var w' := World(c'[s], w.acked - {k}, w.phase);
    TracksInv(c, s, ws, src, dst);
    assert DelStep(w, w', at, k, hops);
    DelKeeps(w, w', src, dst, at, k, hops);
    hide DelKey, Route, DelStep;
    TracksOn(c, c', s, ws, w', src, dst);
  }

  /** Any number of clients, each with a SET or a DEL of any key through any master. Not among them are a SET to a slot
      that is being handed over by the shortcut and a DEL of a key with a stale copy. */
  method Clients(sv: Servers, s: int, telling: bool, src: NodeId, dst: NodeId, ghost ws: seq<World>)
    returns (ghost more: seq<World>)
    requires Tracks(sv.slots, s, ws, src, dst) && telling == Last(ws).phase.Telling?
    modifies sv`slots
    ensures Tracks(sv.slots, s, more, src, dst) && ws <= more && Last(more).phase == Last(ws).phase
    ensures Served(old(sv.slots), sv.slots, s, Last(ws).phase.Moving?, src)
  {
    assert s in sv.slots && ws != [] && Last(ws).col == sv.slots[s];
    hide Tracks, Served, Exposed, Doubled, Route, SetKey, DelKey;
    more := ws;
    ServedNone(sv.slots, s, Last(ws).phase.Moving?, src);
    var left: int := *;
    while left > 0
      invariant Tracks(sv.slots, s, more, src, dst) && ws <= more && s in sv.slots && more != []
      invariant Last(more).phase == Last(ws).phase && Last(more).col == sv.slots[s]
      invariant Served(old(sv.slots), sv.slots, s, Last(ws).phase.Moving?, src)
    {
      left := left - 1;
      var at: NodeId, k: string, v: string := *, *, *;
      var sets: bool, replies: int := *, *;
      var hops := if replies < 0 then 0 else replies;
      var n := Route(sv.slots[s], at, k, false, hops);
      ghost var c, w := sv.slots, Last(more);
      if n.Some? && n.value in sv.slots[s] {
        if sets && !Exposed(sv.slots[s], telling, src, dst) {
          ClientSets(c, s, more, src, dst, at, k, v, hops);
          sv.slots := sv.slots[s := SetKey(sv.slots[s], n.value, k, v)];
          more := more + [World(sv.slots[s], w.acked[k := v], w.phase)];
          ServedOn(old(sv.slots), c, sv.slots, s, Last(ws).phase.Moving?, src);
        } else if !sets && !Doubled(sv.slots[s], k, src, dst) {
          ClientDels(c, s, more, src, dst, at, k, hops);
          sv.slots := sv.slots[s := DelKey(sv.slots[s], n.value, k)];
          more := more + [World(sv.slots[s], w.acked - {k}, w.phase)];
          ServedOn(old(sv.slots), c, sv.slots, s, Last(ws).phase.Moving?, src);
        }
      }
    }
  }

  // ---- the mover's commands ----

  /** The run passes through this column. */
  ghost predicate Passes(ws: seq<World>, col: Column) {
    exists i :: 0 <= i < |ws| && ws[i].col == col
  }

  /** From position `i` on, what each command left is a state of the run. */
  ghost predicate Seen(trace: seq<State>, i: nat, s: int, ws: seq<World>) {
    forall j | i <= j < |trace| :: s in trace[j] && Passes(ws, trace[j][s])
  }

  lemma SeenNone(trace: seq<State>, s: int, ws: seq<World>)
    ensures Seen(trace, |trace|, s, ws)
  {
  }

  lemma SeenMore(trace: seq<State>, i: nat, s: int, ws: seq<World>, more: seq<World>)
    requires Seen(trace, i, s, ws) && ws <= more
    ensures Seen(trace, i, s, more)
  {
    forall j | i <= j < |trace|
      ensures s in trace[j] && Passes(more, trace[j][s])
    {
      var l :| 0 <= l < |ws| && ws[l].col == trace[j][s];
      assert more[l].col == trace[j][s];
    }
  }

  lemma SeenNext(trace: seq<State>, c: State, i: nat, s: int, ws: seq<World>, more: seq<World>)
    requires Seen(trace, i, s, ws) && ws <= more && more != [] && s in c && Last(more).col == c[s]
    ensures Seen(trace + [c], i, s, more)
  {
    SeenMore(trace, i, s, ws, more);
    assert Passes(more, c[s]);
  }

  /** Only slot `s` differs, and has the same masters. */
  ghost predicate Only(c: State, c': State, s: int) {
    && c'.Keys == c.Keys && (forall t | t in c && t != s :: c'[t] == c[t])
    && (s in c ==> c'[s].Keys == c[s].Keys)
  }

  lemma OnlyHas(c: State, c': State, s: int, ms: seq<NodeId>)
    requires s in c && Only(c, c', s) && forall m | m in ms :: m in c[s]
    ensures s in c' && forall m | m in ms :: m in c'[s]
  {
  }

  lemma CommandKeys(w: World, w': World, src: NodeId, dst: NodeId)
    requires Command(w, w', src, dst)
    ensures w'.col.Keys == w.col.Keys
  {
  }

  lemma TracksMeans(c: State, s: int, ws: seq<World>, src: NodeId, dst: NodeId)
    requires Tracks(c, s, ws, src, dst)
    ensures s in c && ws != [] && Last(ws).col == c[s] && src in c[s] && dst in c[s] && src != dst
    ensures Last(ws).phase.Moving? ==> c[s][src].migrating == Some(dst) && Accepts(c[s], dst)
    ensures Last(ws).phase.Telling? ==> c[s][src].keys == map[]
    ensures Visible(c[s], src, dst) == Last(ws).acked
    ensures Last(ws).phase.Probed? ==> SetImporting(c[s], dst, src).Some?
    ensures Last(ws).phase.Importing? ==> SetMigrating(c[s], src, dst).Some?
    ensures Last(ws).phase.Moving? ==> Sends(c[s], src)
    ensures Last(ws).phase.Telling? ==> forall m | m in c[s] :: SetNode(c[s], m, dst).Some?
  {
    TracksInv(c, s, ws, src, dst);
  }

  /** The attempt is over, or goes on without a command. */
  lemma Decides(c: State, s: int, ws: seq<World>, src: NodeId, dst: NodeId, next: Stage)
    requires Tracks(c, s, ws, src, dst)
    requires next == Idle || Command(Last(ws), Last(ws).(phase := next), src, dst)
    ensures var more := ws + [Last(ws).(phase := next)];
            Tracks(c, s, more, src, dst) && Last(more).phase == next && ws <= more
  {
    hide Inv, IsRun, Command, SetStep, DelStep, Exposed;
    TracksOn(c, c, s, ws, Last(ws).(phase := next), src, dst);
  }

  /** A command takes the attempt on, or ends it with or without effect. */
  lemma Commands(
    c: State, c': State, s: int, ws: seq<World>, src: NodeId, dst: NodeId, col: Column, next: Stage, ok: bool)
    requires Tracks(c, s, ws, src, dst) && Command(Last(ws), World(col, Last(ws).acked, next), src, dst)
    requires c' == c[s := col] || (!ok && c' == c)
    ensures var more := ws + [World(c'[s], Last(ws).acked, if ok then next else Idle)];
            Tracks(c', s, more, src, dst) && ws <= more && Last(more).phase == if ok then next else Idle
  {
    hide Inv, IsRun, Command, SetStep, DelStep, Exposed;
    var w' := World(c'[s], Last(ws).acked, if ok then next else Idle);
    if !ok && c' == c[s := col] {
      assert Command(Last(ws), w'.(phase := next), src, dst);
    }
    TracksOn(c, c', s, ws, w', src, dst);
  }

  /** One SETSLOT and then the clients. */
  method SendThenServe(
    sv: Servers, s: int, effect: Option<Column>, telling: bool, src: NodeId, dst: NodeId,
    ghost ws: seq<World>, ghost next: Stage, ghost since: nat)
    returns (ok: bool, ghost more: seq<World>)
    requires Tracks(sv.slots, s, ws, src, dst) && telling == next.Telling? && Seen(sv.trace, since, s, ws)
    requires effect.Some? ==> Command(Last(ws), World(effect.value, Last(ws).acked, next), src, dst)
    modifies sv
    ensures Tracks(sv.slots, s, more, src, dst) && ws <= more && Only(old(sv.slots), sv.slots, s)
    ensures old(sv.trace) <= sv.trace && Seen(sv.trace, since, s, more)
    ensures Last(more).phase == if ok then next else Idle
    ensures ok ==> effect.Some? && SameMarks(effect.value, sv.slots[s])
    ensures sv.faults >= old(sv.faults) && (effect.Some? && sv.faults == old(sv.faults) ==> ok)
  {
    hide Tracks, Command, Seen, SetImporting, SetMigrating, SetNode;
    TracksMeans(sv.slots, s, ws, src, dst);
    if effect.Some? {
      CommandKeys(Last(ws), World(effect.value, Last(ws).acked, next), src, dst);
    }
    ghost var c, before := sv.slots, sv.trace;
    ok := sv.Send(s, effect);
    if effect.Some? {
      Commands(c, sv.slots, s, ws, src, dst, effect.value, next, ok);
      more := ws + [World(sv.slots[s], Last(ws).acked, if ok then next else Idle)];
    } else {
      Decides(c, s, ws, src, dst, Idle);
      more := ws + [Last(ws).(phase := Idle)];
    }
    ghost var mid := more;
    SeenNext(before, sv.slots, since, s, ws, mid);
    more := Clients(sv, s, ok && telling, src, dst, mid);
    SeenMore(sv.trace, since, s, mid, more);
  }

  /** One MIGRATE of fetched keys, with clients before and after it. */
  method MigrateLive(
    sv: Servers, s: int, from: NodeId, to: NodeId, keys: seq<string>, ghost ws: seq<World>, ghost since: nat)
    returns (ok: bool, ghost more: seq<World>)
    requires Tracks(sv.slots, s, ws, from, to) && Last(ws).phase == Moving && Seen(sv.trace, since, s, ws)
    requires from in sv.slots[s] && keys != [] && keys[0] in sv.slots[s][from].keys && keys[0] in keys
    modifies sv
    ensures Tracks(sv.slots, s, more, from, to) && ws <= more && Only(old(sv.slots), sv.slots, s)
    ensures old(sv.trace) <= sv.trace && Seen(sv.trace, since, s, more)
    ensures Last(more).phase == if ok then Moving else Idle
    ensures ok ==> from in sv.slots[s] && |sv.slots[s][from].keys| < |old(sv.slots)[s][from].keys|
    ensures sv.faults >= old(sv.faults) && (sv.faults == old(sv.faults) ==> ok)
  {
    hide *;
    ghost var start := sv.slots;
    TracksMeans(start, s, ws, from, to);
    more := Clients(sv, s, false, from, to, ws);
    TracksMeans(sv.slots, s, more, from, to);
    ghost var before, served := sv.slots, more;
    ServedOnly(start, before, s, true, from);
    ghost var copied, deleted;
    AcceptsIsThere(before[s], from, to, keys);
    ok, copied, deleted := sv.MigrateReplace(s, from, to, keys);
    ghost var moved := Transferred(before, sv.slots, s, served, from, to, copied, deleted, ok);
    OnlyOn(start, before, sv.slots, s);
    TracksMeans(sv.slots, s, moved, from, to);
    SeenMore(old(sv.trace), since, s, ws, served);
    SeenNext(old(sv.trace), sv.slots, since, s, served, moved);
    more := moved;
    if !ok {
      return;
    }
    ghost var after := sv.slots;
    more := Clients(sv, s, false, from, to, moved);
    ServedOnly(after, sv.slots, s, true, from);
    OnlyOn(start, after, sv.slots, s);
    SeenMore(sv.trace, since, s, moved, more);
    DrainShrinks(start, before, after, sv.slots, s, from, to, keys[0], copied, deleted);
  }

  lemma Transferred(
    c: State, c': State, s: int, ws: seq<World>, src: NodeId, dst: NodeId, copied: set<string>, deleted: set<string>,
    ok: bool) returns (more: seq<World>)
    requires Tracks(c, s, ws, src, dst) && Last(ws).phase == Moving && src in c[s] && dst in c[s] && src != dst
    requires c' == c || (deleted <= copied && c' == c[s := Transfer(c[s], src, dst, copied, deleted)])
    requires ok ==> deleted <= copied && c' == c[s := Transfer(c[s], src, dst, copied, deleted)]
    ensures Tracks(c', s, more, src, dst) && ws <= more && Last(more).phase == (if ok then Moving else Idle)
    ensures Only(c, c', s)
  {
    hide Tracks, Accepts, Command;
    TracksMeans(c, s, ws, src, dst);
    assert deleted <= copied ==> Transfer(c[s], src, dst, copied, deleted).Keys == c[s].Keys;
    hide Transfer;
    if ok || c' != c {
      TransferCommand(Last(ws), src, dst, copied, deleted);
      Commands(c, c', s, ws, src, dst, Transfer(c[s], src, dst, copied, deleted), Moving, ok);
      more := ws + [World(c'[s], Last(ws).acked, if ok then Moving else Idle)];
    } else {
      Decides(c, s, ws, src, dst, Idle);
      more := ws + [Last(ws).(phase := Idle)];
    }
  }

  lemma OnlyOn(a: State, b: State, c: State, s: int)
    requires Only(a, b, s) && Only(b, c, s)
    ensures Only(a, c, s)
  {
  }

  lemma OnlyNone(c: State, s: int)
    ensures Only(c, c, s)
  {
  }

  lemma ServedOnly(c: State, c': State, s: int, moving: bool, src: NodeId)
    requires Served(c, c', s, moving, src)
    ensures Only(c, c', s)
  {
  }

  /** Once the source has no key left, the masters are told. */
  lemma StartsTelling(c: State, s: int, ws: seq<World>, src: NodeId, dst: NodeId, masters: seq<NodeId>)
    requires Tracks(c, s, ws, src, dst) && Last(ws).phase in {Idle, Moving} && src in c[s] && c[s][src].keys == map[]
    ensures Command(Last(ws), Last(ws).(phase := Telling(masters)), src, dst)
  {
    hide Inv, IsRun;
    TracksMeans(c, s, ws, src, dst);
  }

  /** GETKEYSINSLOT and MIGRATE until the source has none left. Clients cannot keep the loop going: while the slot is
      marked, new keys go to the target. */
  method DrainLive(
    sv: Servers, s: int, from: NodeId, to: NodeId, masters: seq<NodeId>, ghost ws: seq<World>, ghost since: nat)
    returns (ok: bool, ghost more: seq<World>)
    requires Tracks(sv.slots, s, ws, from, to) && Last(ws).phase == Moving && Seen(sv.trace, since, s, ws)
    modifies sv
    ensures Tracks(sv.slots, s, more, from, to) && ws <= more && Only(old(sv.slots), sv.slots, s)
    ensures old(sv.trace) <= sv.trace && Seen(sv.trace, since, s, more)
    ensures Last(more).phase == if ok then Telling(masters) else Idle
    ensures sv.faults >= old(sv.faults) && (sv.faults == old(sv.faults) ==> ok)
  {
    hide *;
    more := ws;
    TracksMeans(sv.slots, s, more, from, to);
    OnlyNone(sv.slots, s);
    while true
      invariant Tracks(sv.slots, s, more, from, to) && ws <= more && more != [] && Last(more).phase == Moving
      invariant Only(old(sv.slots), sv.slots, s) && s in sv.slots && from in sv.slots[s]
      invariant old(sv.trace) <= sv.trace && Seen(sv.trace, since, s, more) && sv.faults >= old(sv.faults)
      decreases |sv.slots[s][from].keys|
    {
      var keys;
      ok, keys := sv.GetKeysInSlot(s, from, 128);
      if !ok {
        Decides(sv.slots, s, more, from, to, Idle);
        SeenMore(sv.trace, since, s, more, more + [Last(more).(phase := Idle)]);
        more := more + [Last(more).(phase := Idle)];
        return;
      }
      FetchedSome(sv.slots[s][from].keys, 128, keys);
      if |keys| == 0 {
        StartsTelling(sv.slots, s, more, from, to, masters);
        Decides(sv.slots, s, more, from, to, Telling(masters));
        SeenMore(sv.trace, since, s, more, more + [Last(more).(phase := Telling(masters))]);
        more := more + [Last(more).(phase := Telling(masters))];
        return;
      }
      ghost var c, before := sv.slots, more;
      ok, more := MigrateLive(sv, s, from, to, keys, before, since);
      OnlyOn(old(sv.slots), c, sv.slots, s);
      if !ok {
        return;
      }
      TracksMeans(sv.slots, s, more, from, to);
    }
  }

  lemma TransferCommand(w: World, src: NodeId, dst: NodeId, copied: set<string>, deleted: set<string>)
    requires w.phase == Moving && src in w.col && dst in w.col && src != dst && Accepts(w.col, dst) && deleted <= copied
    ensures Command(w, World(Transfer(w.col, src, dst, copied, deleted), w.acked, Moving), src, dst)
  {
  }

  lemma DrainShrinks(
    start: State, before: State, after: State, now: State, s: int, src: NodeId, dst: NodeId, k: string,
    copied: set<string>, deleted: set<string>)
    requires Served(start, before, s, true, src) && src in start[s] && dst in before[s] && src != dst
    requires k in start[s][src].keys && k in deleted
    requires after == before[s := Transfer(before[s], src, dst, copied, deleted)] && Served(after, now, s, true, src)
    ensures src in now[s] && |now[s][src].keys| < |start[s][src].keys|
  {
    var a, b := now[s][src].keys.Keys, start[s][src].keys.Keys;
    assert after[s][src].keys.Keys <= before[s][src].keys.Keys && k !in after[s][src].keys;
    assert a <= b - {k};
    SubsetSize(a, b - {k});
    assert |now[s][src].keys| == |a| && |start[s][src].keys| == |b|;
  }

  /** The masters in `ms` follow `dst`. */
  ghost predicate Told(col: Column, ms: seq<NodeId>, dst: NodeId) {
    forall n | n in ms && n in col :: col[n].owner == dst
  }

  lemma ToldNext(col: Column, ms: seq<NodeId>, m: NodeId, dst: NodeId, now: Column)
    requires Told(col, ms, dst) && SetNode(col, m, dst).Some? && SameMarks(SetNode(col, m, dst).value, now)
    ensures Told(now, ms + [m], dst) && m in now
  {
  }

  lemma TellsNext(w: World, m: NodeId, rest: seq<NodeId>, src: NodeId, dst: NodeId)
    requires w.phase == Telling([m] + rest) && src in w.col && dst in w.col && src != dst
    requires SetNode(w.col, m, dst).Some?
    ensures Command(w, World(SetNode(w.col, m, dst).value, w.acked, Telling(rest)), src, dst)
  {
    assert ([m] + rest)[1..] == rest;
  }

  /** SETSLOT NODE on every master in turn, with clients after each. */
  method TellLive(
    sv: Servers, s: int, from: NodeId, to: NodeId, masters: seq<NodeId>, ghost ws: seq<World>, ghost since: nat)
    returns (ok: bool, ghost more: seq<World>)
    requires Tracks(sv.slots, s, ws, from, to) && Last(ws).phase == Telling(masters) && Seen(sv.trace, since, s, ws)
    modifies sv
    ensures Tracks(sv.slots, s, more, from, to) && ws <= more && Only(old(sv.slots), sv.slots, s)
    ensures old(sv.trace) <= sv.trace && Seen(sv.trace, since, s, more)
    ensures Last(more).phase == if ok then Telling([]) else Idle
    ensures sv.faults >= old(sv.faults)
    ensures sv.faults == old(sv.faults) && (forall m | m in masters :: m in old(sv.slots)[s]) ==> ok
    ensures ok ==> s in sv.slots && Told(sv.slots[s], masters, to) && forall m | m in masters :: m in sv.slots[s]
  {
    hide *;
    more := ws;
    OnlyNone(sv.slots, s);
    TracksMeans(sv.slots, s, more, from, to);
    NobodyTold(sv.slots[s], to);
    for i := 0 to |masters|
      invariant Tracks(sv.slots, s, more, from, to) && ws <= more && more != [] && s in sv.slots
      invariant Last(more).phase == Telling(masters[i..])
      invariant Only(old(sv.slots), sv.slots, s) && old(sv.trace) <= sv.trace && Seen(sv.trace, since, s, more)
      invariant Told(sv.slots[s], masters[..i], to) && forall m | m in masters[..i] :: m in sv.slots[s]
      invariant sv.faults >= old(sv.faults)
      invariant (forall m | m in masters :: m in old(sv.slots)[s]) ==> forall m | m in masters :: m in sv.slots[s]
    {
      TracksMeans(sv.slots, s, more, from, to);
      assert masters[i..] == [masters[i]] + masters[i + 1..] && masters[..i + 1] == masters[..i] + [masters[i]];
      ghost var c, before := sv.slots, more;
      var effect := SetNode(sv.slots[s], masters[i], to);
      if effect.Some? {
        TellsNext(Last(more), masters[i], masters[i + 1..], from, to);
      }
      ok, more := SendThenServe(sv, s, effect, true, from, to, before, Telling(masters[i + 1..]), since);
      OnlyOn(old(sv.slots), c, sv.slots, s);
      TracksMeans(sv.slots, s, more, from, to);
      if !ok {
        return;
      }
      ToldNext(c[s], masters[..i], masters[i], to, sv.slots[s]);
      SameMasters(c[s], masters[i], to, sv.slots[s]);
    }
    ok := true;
    assert masters[|masters|..] == [] && masters[..|masters|] == masters;
  }

  lemma NobodyTold(col: Column, dst: NodeId)
    ensures Told(col, [], dst)
  {
  }

  lemma SameMasters(col: Column, m: NodeId, dst: NodeId, now: Column)
    requires SetNode(col, m, dst).Some? && SameMarks(SetNode(col, m, dst).value, now)
    ensures now.Keys == col.Keys
  {
  }

  // ---- one slot ----

  /** Marks the pair, with clients after each command. */
  method HandshakeLive(sv: Servers, s: int, from: NodeId, to: NodeId, ghost ws: seq<World>, ghost since: nat)
    returns (ok: bool, ghost more: seq<World>)
    requires Tracks(sv.slots, s, ws, from, to) && Last(ws).phase == Probed && Seen(sv.trace, since, s, ws)
    modifies sv
    ensures Tracks(sv.slots, s, more, from, to) && ws <= more && Only(old(sv.slots), sv.slots, s)
    ensures old(sv.trace) <= sv.trace && Seen(sv.trace, since, s, more)
    ensures Last(more).phase == if ok then Moving else Idle
    ensures sv.faults >= old(sv.faults) && (sv.faults == old(sv.faults) ==> ok)
  {
    hide Tracks, Seen, SetImporting, SetMigrating, SetNode;
    TracksMeans(sv.slots, s, ws, from, to);
    ok, more := SendThenServe(sv, s, SetImporting(sv.slots[s], to, from), false, from, to, ws, Importing, since);
    if !ok {
      return;
    }
    TracksMeans(sv.slots, s, more, from, to);
    ghost var marked := more;
    ok, more := SendThenServe(sv, s, SetMigrating(sv.slots[s], from, to), false, from, to, marked, Moving, since);
  }

  /** At every state of the run the slot is on its way, clients see what they were told is stored, and whoever gets
      through reads it. */
  ghost predicate Safe(ws: seq<World>, src: NodeId, dst: NodeId) {
    forall i | 0 <= i < |ws| :: Inv(ws[i], src, dst) && ReadsAcked(ws[i])
  }

  lemma TracksSafe(c: State, s: int, ws: seq<World>, src: NodeId, dst: NodeId)
    requires Tracks(c, s, ws, src, dst)
    ensures Safe(ws, src, dst)
  {
    hide IsRun, Inv, ReadsAcked;
    forall i | 0 <= i < |ws|
      ensures Inv(ws[i], src, dst) && ReadsAcked(ws[i])
    {
      WritesSurvive(ws, src, dst, i);
    }
  }

  lemma TracksStart(c: State, s: int, acked: Keyspace, src: NodeId, dst: NodeId)
    requires s in c && InFlight(c[s], src, dst) && Visible(c[s], src, dst) == acked
    ensures Tracks(c, s, [World(c[s], acked, Idle)], src, dst)
  {
  }

  lemma Probes(c: State, s: int, ws: seq<World>, src: NodeId, dst: NodeId)
    requires Tracks(c, s, ws, src, dst) && Last(ws).phase == Idle && src in c[s] && c[s][src].keys != map[]
    ensures Command(Last(ws), Last(ws).(phase := Probed), src, dst)
  {
    hide Inv, IsRun;
    TracksMeans(c, s, ws, src, dst);
  }

  /** What one slot's move among clients leaves if it succeeds: every master told follows the target, which has all
      that clients were told is stored. */
  ghost predicate Delivers(col: Column, masters: seq<NodeId>, acked: Keyspace, dst: NodeId) {
    Told(col, masters, dst) && (masters != [] ==> dst in col && col[dst].keys == acked)
  }

  lemma TracksDelivers(c: State, s: int, ws: seq<World>, masters: seq<NodeId>, src: NodeId, dst: NodeId)
    requires Tracks(c, s, ws, src, dst) && Told(c[s], masters, dst) && forall m | m in masters :: m in c[s]
    ensures Delivers(c[s], masters, Last(ws).acked, dst)
  {
    TracksMeans(c, s, ws, src, dst);
    if masters != [] {
      assert masters[0] in masters && c[s][masters[0]].owner == dst;
      WritesSurvive(ws, src, dst, |ws| - 1);
    }
  }

  /** The body of the mover's loop, as `MoveSlot`, with any number of clients at work after each of its commands. From
      any slot on its way, whatever is lost and wherever it stops: each state the commands leave is a state of the run,
      at each state of the run clients see what they were told is stored, and on success all of it is on the target. If
      nothing is lost it succeeds, whatever the clients do. */
  method MoveSlotLive(sv: Servers, s: int, masters: seq<NodeId>, from: NodeId, to: NodeId)
    returns (ok: bool, ghost ws: seq<World>)
    requires s in sv.slots && InFlight(sv.slots[s], from, to)
    modifies sv
    ensures old(sv.trace) <= sv.trace && Seen(sv.trace, |old(sv.trace)|, s, ws) && Only(old(sv.slots), sv.slots, s)
    ensures ws != [] && ws[0] == World(old(sv.slots)[s], Visible(old(sv.slots)[s], from, to), Idle)
    ensures s in sv.slots && Last(ws).col == sv.slots[s]
    ensures IsRun(ws, from, to) && Safe(ws, from, to)
    ensures ok ==> Delivers(sv.slots[s], masters, Last(ws).acked, to)
    ensures sv.faults >= old(sv.faults)
    ensures sv.faults == old(sv.faults) && (forall m | m in masters :: m in old(sv.slots)[s]) ==> ok
  {
    hide *;
    ghost var start, since := sv.slots, |sv.trace|;
    ws := Begins(sv.slots, s, from, to);
    SeenNone(sv.trace, s, ws);
    OnlyNone(sv.slots, s);
    ok, ws := MoveTracked(sv, s, masters, from, to, ws, since);
    TracksMeans(sv.slots, s, ws, from, to);
    TracksRuns(sv.slots, s, ws, from, to);
    TracksSafe(sv.slots, s, ws, from, to);
  }

  lemma Begins(c: State, s: int, src: NodeId, dst: NodeId) returns (ws: seq<World>)
    requires s in c && InFlight(c[s], src, dst)
    ensures src in c[s] && dst in c[s] && ws == [World(c[s], Visible(c[s], src, dst), Idle)]
    ensures Tracks(c, s, ws, src, dst) && Last(ws).phase == Idle
  {
    ws := [World(c[s], Visible(c[s], src, dst), Idle)];
    TracksStart(c, s, Visible(c[s], src, dst), src, dst);
  }

  lemma TracksRuns(c: State, s: int, ws: seq<World>, src: NodeId, dst: NodeId)
    requires Tracks(c, s, ws, src, dst)
    ensures IsRun(ws, src, dst)
  {
  }

  /** The probe and, when the source holds keys, the handshake and the transfers. */
  method EmptyLive(
    sv: Servers, s: int, masters: seq<NodeId>, from: NodeId, to: NodeId, ghost start: seq<World>, ghost since: nat)
    returns (ok: bool, ghost ws: seq<World>)
    requires Tracks(sv.slots, s, start, from, to) && Last(start).phase == Idle && Seen(sv.trace, since, s, start)
    modifies sv
    ensures Tracks(sv.slots, s, ws, from, to) && start <= ws && Only(old(sv.slots), sv.slots, s)
    ensures old(sv.trace) <= sv.trace && Seen(sv.trace, since, s, ws)
    ensures ok ==> ws != [] && Last(ws).phase == Telling(masters)
    ensures sv.faults >= old(sv.faults) && (sv.faults == old(sv.faults) ==> ok)
  {
    hide *;
    ws := start;
    TracksMeans(sv.slots, s, ws, from, to);
    OnlyNone(sv.slots, s);
    var probe;
    ok, probe := sv.GetKeysInSlot(s, from, 1);
    if !ok {
      return;
    }
    FetchedSome(sv.slots[s][from].keys, 1, probe);
    ghost var next := if |probe| > 0 then Probed else Telling(masters);
    if |probe| > 0 {
      Probes(sv.slots, s, ws, from, to);
    } else {
      StartsTelling(sv.slots, s, ws, from, to, masters);
    }
    Decides(sv.slots, s, ws, from, to, next);
    SeenMore(sv.trace, since, s, ws, ws + [Last(ws).(phase := next)]);
    ws := ws + [Last(ws).(phase := next)];
    ghost var before := ws;
    ws := Clients(sv, s, |probe| == 0, from, to, before);
    ServedOnly(old(sv.slots), sv.slots, s, next.Moving?, from);
    SeenMore(sv.trace, since, s, before, ws);
    if |probe| > 0 {
      ghost var c, probed := sv.slots, ws;
      ok, ws := HandshakeLive(sv, s, from, to, probed, since);
      OnlyOn(old(sv.slots), c, sv.slots, s);
      if !ok {
        return;
      }
      ghost var c1, marked := sv.slots, ws;
      ok, ws := DrainLive(sv, s, from, to, masters, marked, since);
      OnlyOn(old(sv.slots), c1, sv.slots, s);
      if !ok {
        return;
      }
    }
  }

  method MoveTracked(
    sv: Servers, s: int, masters: seq<NodeId>, from: NodeId, to: NodeId, ghost start: seq<World>, ghost since: nat)
    returns (ok: bool, ghost ws: seq<World>)
    requires Tracks(sv.slots, s, start, from, to) && Last(start).phase == Idle && Seen(sv.trace, since, s, start)
    modifies sv
    ensures Tracks(sv.slots, s, ws, from, to) && start <= ws && Only(old(sv.slots), sv.slots, s)
    ensures old(sv.trace) <= sv.trace && Seen(sv.trace, since, s, ws)
    ensures ok ==> s in sv.slots && ws != [] && Delivers(sv.slots[s], masters, Last(ws).acked, to)
    ensures sv.faults >= old(sv.faults)
    ensures sv.faults == old(sv.faults) && s in old(sv.slots) && (forall m | m in masters :: m in old(sv.slots)[s]) ==>
              ok
  {
    hide *;
    TracksMeans(sv.slots, s, start, from, to);
    ok, ws := EmptyLive(sv, s, masters, from, to, start, since);
    if !ok {
      return;
    }
    ghost var c, drained := sv.slots, ws;
    TracksMeans(c, s, drained, from, to);
    if forall m | m in masters :: m in old(sv.slots)[s] {
      OnlyHas(old(sv.slots), c, s, masters);
    }
    ok, ws := TellLive(sv, s, from, to, masters, drained, since);
    OnlyOn(old(sv.slots), c, sv.slots, s);
    TracksMeans(sv.slots, s, ws, from, to);
    if ok {
      TracksDelivers(sv.slots, s, ws, masters, from, to);
    }
  }
}
