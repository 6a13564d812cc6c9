/** Clients at work while a slot moves. The mover's treatment of one slot is a state machine of its commands, each of
    which may be lost with or without effect and then ends the attempt; between any two of them any client may SET or
    DEL any key through any master. A stopped attempt may be followed by another. */
module Writes {
  import opened Wrappers
  import opened SlotState
  import opened Mover
  import opened Routing

  /** Where an attempt stands: not at work, the probe found a key, the target is marked, both are marked, or the
      masters in `left` are still to be told. */
  datatype Stage = Idle | Probed | Importing | Moving | Telling(left: seq<NodeId>)

  /** The slot, what clients were told is stored, and the phase of the mover. */
  datatype World = World(col: Column, acked: Keyspace, phase: Stage)

  // ---- steps ----

  /** The mover's next command or decision takes effect. */
  ghost predicate Command(w: World, w': World, src: NodeId, dst: NodeId) {
    && w'.acked == w.acked && src in w.col && dst in w.col && src != dst
    && match w.phase
       case Idle =>
         && w'.col == w.col
         && if w.col[src].keys != map[] then w'.phase == Probed else w'.phase.Telling?
       case Probed =>
         w'.phase == Importing && SetImporting(w.col, dst, src) == Some(w'.col)
       case Importing =>
         w'.phase == Moving && SetMigrating(w.col, src, dst) == Some(w'.col)
       case Moving =>
         || (w'.phase.Telling? && w'.col == w.col && w.col[src].keys == map[])
         || (w'.phase == Moving && Accepts(w.col, dst)
             && exists copied: set<string>, deleted: set<string> | deleted <= copied ::
                  w'.col == Transfer(w.col, src, dst, copied, deleted))
       case Telling(left) =>
         if left == [] then w' == w.(phase := Idle)
         else w'.phase == Telling(left[1..]) && SetNode(w.col, left[0], dst) == Some(w'.col)
  }

  /** A command takes effect, is answered or not, or gets lost; an attempt that hears no answer is over. */
  ghost predicate MoverStep(w: World, w': World, src: NodeId, dst: NodeId) {
    || w' == w.(phase := Idle)
    || Command(w, w', src, dst)
    || (w'.phase == Idle && exists p: Stage :: Command(w, w'.(phase := p), src, dst))
  }

  ghost predicate SetStep(w: World, w': World, at: NodeId, k: string, v: string, hops: nat) {
    var n := Route(w.col, at, k, false, hops);
    n.Some? && n.value in w.col && w' == World(SetKey(w.col, n.value, k, v), w.acked[k := v], w.phase)
  }

  ghost predicate DelStep(w: World, w': World, at: NodeId, k: string, hops: nat) {
    var n := Route(w.col, at, k, false, hops);
    n.Some? && n.value in w.col && w' == World(DelKey(w.col, n.value, k), w.acked - {k}, w.phase)
  }

  /** The source still serves the slot unmarked while its handover is decided or under way: the empty-slot shortcut. */
  predicate Exposed(col: Column, telling: bool, src: NodeId, dst: NodeId) {
    src in col && col[src].owner == src && col[src].migrating == None && (telling || Unguarded(col, src, dst))
  }

  /** A stale copy: the key is on both masters, and a DEL reaches one of them only. */
  predicate Doubled(col: Column, k: string, src: NodeId, dst: NodeId) {
    src in col && dst in col && k in col[src].keys && k in col[dst].keys
  }

  /** A step of the mover, a SET while the slot is not exposed, or a DEL of a key without a stale copy. */
  ghost predicate Step(w: World, w': World, src: NodeId, dst: NodeId) {
    || MoverStep(w, w', src, dst)
    || (!Exposed(w.col, w.phase.Telling?, src, dst) && exists at, k, v, hops :: SetStep(w, w', at, k, v, hops))
    || exists at, k, hops :: DelStep(w, w', at, k, hops) && !Doubled(w.col, k, src, dst)
  }

  // ---- what every state holds ----

  /** The slot is on its way and clients see what they were told is stored. */
  ghost predicate Inv(w: World, src: NodeId, dst: NodeId) {
    && InFlight(w.col, src, dst) && Visible(w.col, src, dst) == w.acked
    && (w.phase.Probed? || w.phase.Importing? || w.phase.Moving? ==> w.col[src].owner == w.col[dst].owner == src)
    && (w.phase.Importing? ==> w.col[dst].importing == Some(src))
    && (w.phase.Moving? ==> w.col[src].migrating == Some(dst))
    && (w.phase.Telling? ==> w.col[src].keys == map[])
  }

  lemma AdvancesKeepInv(w: World, col: Column, src: NodeId, dst: NodeId)
    requires Inv(w, src, dst) && Advances(w.col, col, src, dst)
    ensures InFlight(col, src, dst) && Visible(col, src, dst) == w.acked
    ensures w.col[src].keys == map[] ==> col[src].keys == map[]
  {
    hide Backed;
  }

  /** Telling one more master of a drained slot. */
  lemma TellAdvances(col: Column, m: NodeId, src: NodeId, dst: NodeId)
    requires InFlight(col, src, dst) && col[src].keys == map[] && SetNode(col, m, dst).Some?
    ensures Advances(col, SetNode(col, m, dst).value, src, dst)
  {
    assert AssignOn(col, [], dst) == col;
    AssignOneMore(col, [], m, dst);
    AssignOnAdvances(col, [m], src, dst);
    assert [] + [m] == [m];
    hide Advances;
  }

  lemma CommandKeeps(w: World, w': World, src: NodeId, dst: NodeId)
    requires Inv(w, src, dst) && Command(w, w', src, dst)
    ensures Inv(w', src, dst)
  {
    match w.phase
    case Idle =>
    case Probed =>
      ImportingAdvances(w.col, src, dst);
      AdvancesKeepInv(w, w'.col, src, dst);
    case Importing =>
      MigratingAdvances(w.col, src, dst);
      AdvancesKeepInv(w, w'.col, src, dst);
    case Moving =>
      if w'.phase == Moving {
        var copied: set<string>, deleted: set<string> :|
          deleted <= copied && w'.col == Transfer(w.col, src, dst, copied, deleted);
        TransferAdvances(w.col, src, dst, copied, deleted);
        AdvancesKeepInv(w, w'.col, src, dst);
      }
    case Telling(left) =>
      if left != [] {
        TellAdvances(w.col, left[0], src, dst);
        AdvancesKeepInv(w, w'.col, src, dst);
      }
  }

  // ---- clients ----

  lemma {:induction false} RouteLonger(col: Column, at: NodeId, k: string, asking: bool, hops: nat, more: nat)
    requires Route(col, at, k, asking, hops).Some? && hops <= more
    ensures Route(col, at, k, asking, more) == Route(col, at, k, asking, hops)
    decreases hops
  {
    if col[at].owner == at {
      if col[at].migrating.Some? && k !in col[at].keys {
        RouteLonger(col, col[at].migrating.value, k, true, hops - 1, more - 1);
      }
    } else if !(asking && col[at].importing.Some?) {
      RouteLonger(col, col[at].owner, k, false, hops - 1, more - 1);
    }
  }

  lemma RouteStarts(col: Column, at: NodeId, k: string, hops: nat)
    requires Route(col, at, k, false, hops).Some?
    ensures at in col
  {
  }

  /** Whoever executes a client's command serves the key. */
  lemma RoutedServes(col: Column, src: NodeId, dst: NodeId, at: NodeId, k: string, hops: nat)
    requires InFlight(col, src, dst) && Route(col, at, k, false, hops).Some?
    ensures !Limbo(col, src, dst) && Serves(col, src, dst, k, Route(col, at, k, false, hops))
  {
    hide InFlight, Route, Serves;
    RouteStarts(col, at, k, hops);
    if Limbo(col, src, dst) {
      LimboLoops(col, src, dst, at, k, hops);
    } else {
      var more := if hops < 4 then 4 else hops;
      RouteLonger(col, at, k, false, hops, more);
      ReachesServer(col, src, dst, at, k, more);
    }
  }

  lemma SetKeeps(w: World, w': World, src: NodeId, dst: NodeId, at: NodeId, k: string, v: string, hops: nat)
    requires Inv(w, src, dst) && !Exposed(w.col, w.phase.Telling?, src, dst) && SetStep(w, w', at, k, v, hops)
    ensures Inv(w', src, dst) && SameMarks(w.col, w'.col)
    ensures w.phase.Moving? ==> w'.col[src].keys.Keys <= w.col[src].keys.Keys
  {
    hide Route;
    var n := Route(w.col, at, k, false, hops).value;
    RoutedServes(w.col, src, dst, at, k, hops);
    assert !Unguarded(w.col, src, dst) by {
      assert Unguarded(w.col, src, dst) ==> Exposed(w.col, w.phase.Telling?, src, dst);
    }
    SetIsKept(w.col, src, dst, k, v, n);
    SetChanges(w.col, src, dst, k, v, n);
    if w.phase.Telling? {
      assert n == dst;
    }
    hide InFlight, Unguarded;
  }

  lemma DelKeeps(w: World, w': World, src: NodeId, dst: NodeId, at: NodeId, k: string, hops: nat)
    requires Inv(w, src, dst) && DelStep(w, w', at, k, hops) && !Doubled(w.col, k, src, dst)
    ensures Inv(w', src, dst) && SameMarks(w.col, w'.col)
    ensures w'.col[src].keys.Keys <= w.col[src].keys.Keys
  {
    hide Route;
    var n := Route(w.col, at, k, false, hops).value;
    RoutedServes(w.col, src, dst, at, k, hops);
    assert n in {src, dst};
    DelIsKept(w.col, src, dst, k, n);
    DelChanges(w.col, src, dst, k, n);
    hide InFlight, Serves, DelKey;
  }

  lemma StepKeeps(w: World, w': World, src: NodeId, dst: NodeId)
    requires Inv(w, src, dst) && Step(w, w', src, dst)
    ensures Inv(w', src, dst)
  {
    hide Command, SetStep, DelStep, Exposed;
    if MoverStep(w, w', src, dst) {
      if Command(w, w', src, dst) {
        CommandKeeps(w, w', src, dst);
      } else if w' != w.(phase := Idle) {
        var p: Stage :| Command(w, w'.(phase := p), src, dst);
        CommandKeeps(w, w'.(phase := p), src, dst);
      }
    } else if !Exposed(w.col, w.phase.Telling?, src, dst) && exists at, k, v, hops :: SetStep(w, w', at, k, v, hops) {
      var at, k, v, hops :| SetStep(w, w', at, k, v, hops);
      SetKeeps(w, w', src, dst, at, k, v, hops);
    } else {
      var at, k, hops :| DelStep(w, w', at, k, hops) && !Doubled(w.col, k, src, dst);
      DelKeeps(w, w', src, dst, at, k, hops);
    }
  }

  // ---- whole runs ----

  ghost predicate IsRun(ws: seq<World>, src: NodeId, dst: NodeId) {
    forall i | 0 <= i < |ws| - 1 :: Step(ws[i], ws[i + 1], src, dst)
  }

  /** A client that gets through, from whatever master, reads the value it was told is stored, or nothing if there
      is none. */
  ghost predicate ReadsAcked(w: World) {
    forall at, k, hops | Route(w.col, at, k, false, hops).Some? ::
      var n := Route(w.col, at, k, false, hops).value;
      n in w.col && SameAt(w.col[n].keys, w.acked, k)
  }

  lemma InvReadsAcked(w: World, src: NodeId, dst: NodeId)
    requires Inv(w, src, dst)
    ensures ReadsAcked(w)
  {
    hide Route, InFlight;
    forall at, k, hops | Route(w.col, at, k, false, hops).Some?
      ensures var n := Route(w.col, at, k, false, hops).value; n in w.col && SameAt(w.col[n].keys, w.acked, k)
    {
      RoutedServes(w.col, src, dst, at, k, hops);
      ServerIsRight(w.col, src, dst, k, Route(w.col, at, k, false, hops));
    }
  }

  /** Every acknowledged write survives every run, whatever is lost, whoever writes when, and however often the mover
      starts again: at each state what clients see is what they were told, and any of them that gets through reads
      it. Once somebody follows the target, all of it is there. */
  lemma {:induction false} WritesSurvive(ws: seq<World>, src: NodeId, dst: NodeId, i: nat)
    requires IsRun(ws, src, dst) && i < |ws| && Inv(ws[0], src, dst)
    ensures Inv(ws[i], src, dst) && ReadsAcked(ws[i])
    ensures (exists n :: n in ws[i].col && ws[i].col[n].owner == dst) ==> ws[i].col[dst].keys == ws[i].acked
  {
    hide Step, ReadsAcked;
    if i > 0 {
      WritesSurvive(ws, src, dst, i - 1);
      StepKeeps(ws[i - 1], ws[i], src, dst);
    }
    InvReadsAcked(ws[i], src, dst);
    if n :| n in ws[i].col && ws[i].col[n].owner == dst {
      assert ws[i].col[src].keys == map[];
      assert Visible(ws[i].col, src, dst) == ws[i].col[dst].keys;
    }
  }

  /** A slot at rest is where such a run may start. */
  lemma RestBegins(col: Column, src: NodeId, dst: NodeId)
    requires Settled(col, src) && dst in col && src != dst
    ensures Inv(World(col, col[src].keys, Idle), src, dst)
  {
    SettledIsInFlight(col, src, dst);
  }

  /** While the keys move, a new key goes to the target. */
  lemma NewKeysGoToTarget(w: World, src: NodeId, dst: NodeId, at: NodeId, k: string, hops: nat)
    requires Inv(w, src, dst) && w.phase.Moving? && k !in w.col[src].keys && Route(w.col, at, k, false, hops).Some?
    ensures Route(w.col, at, k, false, hops) == Some(dst)
  {
    RoutedServes(w.col, src, dst, at, k, hops);
  }

  /** Without the guard a write is lost: the probe finds the slot empty, a client writes through the source, the target
      is told, and a read through the target finds nothing. */
  lemma ExposedWriteIsLost()
    ensures var empty, written := View("a", None, None, map[]), View("a", None, None, map["k" := "v"]);
            var w0 := World(map["a" := empty, "b" := empty], map[], Idle);
            var w1 := w0.(phase := Telling(["b"]));
            var w2 := World(map["a" := written, "b" := empty], map["k" := "v"], Telling(["b"]));
            var w3 := World(map["a" := written, "b" := empty.(owner := "b")], map["k" := "v"], Telling([]));
            && Inv(w0, "a", "b") && MoverStep(w0, w1, "a", "b")
            && Exposed(w1.col, w1.phase.Telling?, "a", "b") && SetStep(w1, w2, "a", "k", "v", 1)
            && MoverStep(w2, w3, "a", "b")
            && "k" in w3.acked && Route(w3.col, "b", "k", false, 1) == Some("b") && "k" !in w3.col["b"].keys
  {
    var empty, written := View("a", None, None, map[]), View("a", None, None, map["k" := "v"]);
    var col: Column := map["a" := empty, "b" := empty];
    var w0 := World(col, map[], Idle);
    var w1 := w0.(phase := Telling(["b"]));
    var w2 := World(map["a" := written, "b" := empty], map["k" := "v"], Telling(["b"]));
    var w3 := World(map["a" := written, "b" := empty.(owner := "b")], map["k" := "v"], Telling([]));
    assert ["b"][1..] == [];
    assert SetNode(w2.col, "b", "b").value == w3.col;
    assert Command(w0, w1, "a", "b") && Command(w2, w3, "a", "b");
    assert SetKey(col, "a", "k", "v") == w2.col;
  }
}
