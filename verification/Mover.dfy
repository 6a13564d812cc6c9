/** The native slot mover: `MoveSlots` against live masters, any of whose commands may be lost. */
module Mover {
  import opened Wrappers
  import opened Cluster
  import opened Masters
  import opened SlotState

  // ---- assigning an owner, master by master ----

  /** A view after its master executed SETSLOT NODE dst. */
  function Assigned(v: View, at: NodeId, dst: NodeId): View {
    v.(owner := dst,
       migrating := if v.keys == map[] then None else v.migrating,
       importing := if dst == at then None else v.importing)
  }

  /** The column after the masters `ms` executed SETSLOT NODE dst. */
  function AssignOn(col: Column, ms: seq<NodeId>, dst: NodeId): Column {
    map n | n in col :: if n in ms then Assigned(col[n], n, dst) else col[n]
  }

  lemma AssignOneMore(col: Column, ms: seq<NodeId>, m: NodeId, dst: NodeId)
    requires SetNode(AssignOn(col, ms, dst), m, dst).Some?
    ensures SetNode(AssignOn(col, ms, dst), m, dst).value == AssignOn(col, ms + [m], dst)
  {
  }

  /** Handing over a drained slot advances its migration after any number of masters. */
  lemma AssignOnAdvances(col: Column, ms: seq<NodeId>, src: NodeId, dst: NodeId)
    requires src in col && col[src].keys == map[]
    ensures Advances(col, AssignOn(col, ms, dst), src, dst)
  {
    hide Keeps, Visible;
    AssignOnKeeps(col, ms, src, dst);
    assert AssignOn(col, ms, dst).Keys == col.Keys;
  }

  lemma AssignOnKeeps(col: Column, ms: seq<NodeId>, src: NodeId, dst: NodeId)
    requires src in col && col[src].keys == map[]
    ensures Keeps(col, AssignOn(col, ms, dst), src, dst)
  {
    var after := AssignOn(col, ms, dst);
    assert after.Keys == col.Keys && forall n | n in col :: after[n].keys == col[n].keys;
  }

  /** Once every master has been told, the slot is handed over. */
  lemma AssignOnAll(col: Column, ms: seq<NodeId>, src: NodeId, dst: NodeId)
    requires InFlight(col, src, dst) && col[src].keys == map[]
    requires forall n | n in col :: n in ms
    ensures AssignOn(col, ms, dst) == HandedOver(col, src, dst)
  {
    assert Visible(col, src, dst) == col[dst].keys;
  }

  /** The slot is on its way and its source is drained. */
  ghost predicate Drained(col: Column, src: NodeId, dst: NodeId) {
    InFlight(col, src, dst) && col[src].keys == map[]
  }

  /** No master refuses a drained slot's new owner. */
  lemma AssignAccepted(col: Column, ms: seq<NodeId>, m: NodeId, src: NodeId, dst: NodeId)
    requires Drained(col, src, dst) && m in col
    ensures SetNode(AssignOn(col, ms, dst), m, dst).Some?
  {
  }

  /** `a` is listed, and before `b` if `b` is listed at all. */
  ghost predicate Precedes(ms: seq<NodeId>, a: NodeId, b: NodeId) {
    exists i :: 0 <= i < |ms| && ms[i] == a && b !in ms[..i + 1]
  }

  /** A handover passes through limbo exactly while the source has been told and the target has not. */
  lemma LimboWhile(col: Column, ms: seq<NodeId>, src: NodeId, dst: NodeId)
    requires InFlight(col, src, dst) && !Limbo(col, src, dst)
    ensures Limbo(AssignOn(col, ms, dst), src, dst) <==> src in ms && dst !in ms && col[dst].owner == src
  {
  }

  lemma NoLimboWhenTargetFirst(col: Column, ms: seq<NodeId>, j: nat, src: NodeId, dst: NodeId)
    requires InFlight(col, src, dst) && !Limbo(col, src, dst)
    requires j <= |ms| && Precedes(ms, dst, src)
    ensures !Limbo(AssignOn(col, ms[..j], dst), src, dst)
  {
    LimboWhile(col, ms[..j], src, dst);
    var i :| 0 <= i < |ms| && ms[i] == dst && src !in ms[..i + 1];
    if i < j {
      assert ms[..j][i] == dst;
    } else {
      assert forall m | m in ms[..j] :: m in ms[..i + 1];
    }
  }

  /** Only slot `s` differs, and its migration has advanced. */
  ghost predicate Within(c0: State, c: State, s: int, src: NodeId, dst: NodeId) {
    && c.Keys == c0.Keys
    && (forall t | t in c0 && t != s :: c[t] == c0[t])
    && (s in c0 ==> Advances(c0[s], c[s], src, dst))
  }

  lemma Shrinks(m: Keyspace, deleted: set<string>, k: string)
    requires k in m && k in deleted
    ensures |m - deleted| < |m|
  {
    assert (m - deleted).Keys <= m.Keys - {k};
    assert |(m - deleted).Keys| <= |m.Keys - {k}| by { SubsetSize((m - deleted).Keys, m.Keys - {k}); }
    assert |m| == |m.Keys| && |m - deleted| == |(m - deleted).Keys|;
  }

  /** Every command from position `i` of the trace on left the cluster `Within` c0. */
  ghost predicate TraceWithin(trace: seq<State>, i: nat, c0: State, s: int, src: NodeId, dst: NodeId) {
    forall j | i <= j < |trace| :: Within(c0, trace[j], s, src, dst)
  }

  /** No state of the trace from `i` on leaves slot `s` in limbo. */
  ghost predicate NoLimbo(trace: seq<State>, i: nat, s: int, src: NodeId, dst: NodeId) {
    forall j | i <= j < |trace| :: !(s in trace[j] && Limbo(trace[j][s], src, dst))
  }

  ghost predicate SomeLimbo(trace: seq<State>, i: nat, s: int, src: NodeId, dst: NodeId) {
    exists j :: i <= j < |trace| && s in trace[j] && Limbo(trace[j][s], src, dst)
  }

  /** As `Within`, and no master has changed its mind about the owner. */
  ghost predicate Quiet(c0: State, c: State, s: int, src: NodeId, dst: NodeId) {
    && Within(c0, c, s, src, dst)
    && (s in c0 ==> c[s].Keys == c0[s].Keys && forall n | n in c0[s] :: c[s][n].owner == c0[s][n].owner)
  }

  ghost predicate TraceQuiet(trace: seq<State>, i: nat, c0: State, s: int, src: NodeId, dst: NodeId) {
    forall j | i <= j < |trace| :: Quiet(c0, trace[j], s, src, dst)
  }

  lemma QuietRefl(c: State, s: int, src: NodeId, dst: NodeId)
    ensures Quiet(c, c, s, src, dst)
  {
    hide Advances;
    if s in c {
      AdvancesNot(c[s], src, dst);
    }
  }

  /** A step that changes one column and advances it keeps `Quiet`. */
  lemma QuietStep(c0: State, c: State, col: Column, s: int, src: NodeId, dst: NodeId)
    requires Quiet(c0, c, s, src, dst) && s in c && Advances(c[s], col, src, dst)
    requires col.Keys == c[s].Keys && forall n | n in col :: col[n].owner == c[s][n].owner
    ensures Quiet(c0, c[s := col], s, src, dst)
  {
    hide Advances;
    AdvancesOn(c0[s], c[s], col, src, dst);
  }

  lemma ImportingIsQuiet(c0: State, c: State, s: int, src: NodeId, dst: NodeId)
    requires Quiet(c0, c, s, src, dst) && s in c
    ensures var e := SetImporting(c[s], dst, src);
            e.Some? ==> Quiet(c0, c[s := e.value], s, src, dst) && e.value[dst].importing == Some(src)
                        && e.value.Keys == c[s].Keys
  {
    if SetImporting(c[s], dst, src).Some? {
      ImportingAdvances(c[s], src, dst);
      QuietStep(c0, c, SetImporting(c[s], dst, src).value, s, src, dst);
    }
  }

  lemma MigratingIsQuiet(c0: State, c: State, s: int, src: NodeId, dst: NodeId)
    requires Quiet(c0, c, s, src, dst) && s in c && dst in c[s] && c[s][dst].importing == Some(src)
    ensures var e := SetMigrating(c[s], src, dst);
            e.Some? ==> Quiet(c0, c[s := e.value], s, src, dst) && e.value[src].migrating == Some(dst)
  {
    if SetMigrating(c[s], src, dst).Some? {
      MigratingAdvances(c[s], src, dst);
      QuietStep(c0, c, SetMigrating(c[s], src, dst).value, s, src, dst);
    }
  }

  lemma TransferIsQuiet(
    c0: State, c: State, s: int, src: NodeId, dst: NodeId, copied: set<string>, deleted: set<string>)
    requires Quiet(c0, c, s, src, dst) && s in c
    requires src in c[s] && dst in c[s] && src != dst && c[s][src].migrating == Some(dst) && deleted <= copied
    ensures var after := Transfer(c[s], src, dst, copied, deleted);
            && Quiet(c0, c[s := after], s, src, dst)
            && src in after && after[src].migrating == Some(dst) && after[src].keys == c[s][src].keys - deleted
            && (Accepts(c[s], dst) ==> Accepts(after, dst)) && (Sends(c[s], src) ==> Sends(after, src))
  {
    TransferAdvances(c[s], src, dst, copied, deleted);
    QuietStep(c0, c, Transfer(c[s], src, dst, copied, deleted), s, src, dst);
  }

  /** What the trace of AssignOwner looks like when it starts from `mid` at position `i`. */
  ghost predicate AssignTrace(trace: seq<State>, i: nat, mid: State, s: int, ms: seq<NodeId>, dst: NodeId, ok: bool)
    requires s in mid
  {
    && |trace| <= i + |ms| && (ok ==> |trace| == i + |ms|)
    && forall j | i <= j < |trace| ::
         || trace[j] == AssignState(mid, s, ms[..j - i + 1], dst)
         || (!ok && trace[j] == AssignState(mid, s, ms[..j - i], dst))
  }

  /** The cluster after the masters `ms` executed SETSLOT s NODE dst. */
  function AssignState(c: State, s: int, ms: seq<NodeId>, dst: NodeId): State
    requires s in c
  {
    c[s := AssignOn(c[s], ms, dst)]
  }

  lemma AssignStateStep(c: State, s: int, ms: seq<NodeId>, i: nat, dst: NodeId)
    requires s in c && i < |ms|
    ensures var now := AssignState(c, s, ms[..i], dst);
            && s in now && now[s] == AssignOn(c[s], ms[..i], dst)
            && var effect := SetNode(now[s], ms[i], dst);
               effect.Some? ==> now[s := effect.value] == AssignState(c, s, ms[..i + 1], dst)
  {
    if SetNode(AssignOn(c[s], ms[..i], dst), ms[i], dst).Some? {
      AssignOneMore(c[s], ms[..i], ms[i], dst);
      assert ms[..i] + [ms[i]] == ms[..i + 1];
    }
  }

  lemma AssignStateNone(c: State, s: int, dst: NodeId)
    requires s in c
    ensures AssignState(c, s, [], dst) == c
  {
    assert AssignOn(c[s], [], dst) == c[s];
  }

  lemma AssignTraceStart(trace: seq<State>, c: State, s: int, ms: seq<NodeId>, dst: NodeId)
    requires s in c
    ensures AssignTrace(trace, |trace|, c, s, ms[..0], dst, true)
  {
  }

  lemma AssignStateWithin(c0: State, mid: State, s: int, ms: seq<NodeId>, src: NodeId, dst: NodeId)
    requires Quiet(c0, mid, s, src, dst) && s in c0 && src in mid[s] && mid[s][src].keys == map[]
    ensures Within(c0, AssignState(mid, s, ms, dst), s, src, dst)
  {
    hide Advances, AssignOn;
    AssignOnAdvances(mid[s], ms, src, dst);
    AdvancesOn(c0[s], mid[s], AssignOn(mid[s], ms, dst), src, dst);
  }

  lemma AssignTraceStep(
    trace: seq<State>, c: State, i: nat, mid: State, s: int, ms: seq<NodeId>, k: nat, dst: NodeId, ok: bool)
    requires s in mid && k < |ms| && AssignTrace(trace, i, mid, s, ms[..k], dst, true)
    requires ok ==> c == AssignState(mid, s, ms[..k + 1], dst)
    requires c == AssignState(mid, s, ms[..k], dst) || c == AssignState(mid, s, ms[..k + 1], dst)
    ensures AssignTrace(trace + [c], i, mid, s, ms, dst, false)
    ensures ok ==> AssignTrace(trace + [c], i, mid, s, ms[..k + 1], dst, true)
  {
    assert ms[..k][..k] == ms[..k] && ms[..k + 1][..k + 1] == ms[..k + 1];
    forall j | i <= j < |trace|
      ensures trace[j] == AssignState(mid, s, ms[..j - i + 1], dst)
    {
      assert ms[..k][..j - i + 1] == ms[..j - i + 1];
    }
    forall j | i <= j < |trace|
      ensures trace[j] == AssignState(mid, s, ms[..k + 1][..j - i + 1], dst)
    {
      assert ms[..k + 1][..j - i + 1] == ms[..j - i + 1];
    }
  }

  lemma AssignTraceWithin(
    c0: State, mid: State, trace: seq<State>, i: nat, s: int, ms: seq<NodeId>, src: NodeId, dst: NodeId, ok: bool)
    requires Quiet(c0, mid, s, src, dst) && s in c0 && src in mid[s] && mid[s][src].keys == map[]
    requires AssignTrace(trace, i, mid, s, ms, dst, ok)
    ensures TraceWithin(trace, i, c0, s, src, dst)
  {
    forall j | i <= j < |trace|
      ensures Within(c0, trace[j], s, src, dst)
    {
      AssignStateWithin(c0, mid, s, ms[..j - i], src, dst);
      AssignStateWithin(c0, mid, s, ms[..j - i + 1], src, dst);
    }
  }

  lemma AssignTraceNoLimbo(
    mid: State, trace: seq<State>, i: nat, s: int, ms: seq<NodeId>, src: NodeId, dst: NodeId, ok: bool)
    requires s in mid && AssignTrace(trace, i, mid, s, ms, dst, ok)
    requires InFlight(mid[s], src, dst) && !Limbo(mid[s], src, dst) && Precedes(ms, dst, src)
    ensures NoLimbo(trace, i, s, src, dst)
  {
    forall j | i <= j < |trace|
      ensures !(s in trace[j] && Limbo(trace[j][s], src, dst))
    {
      NoLimboWhenTargetFirst(mid[s], ms, j - i, src, dst);
      NoLimboWhenTargetFirst(mid[s], ms, j - i + 1, src, dst);
    }
  }

  lemma AssignTraceSomeLimbo(
    mid: State, trace: seq<State>, i: nat, s: int, ms: seq<NodeId>, src: NodeId, dst: NodeId)
    requires s in mid && AssignTrace(trace, i, mid, s, ms, dst, true)
    requires InFlight(mid[s], src, dst) && mid[s][dst].owner == src && Precedes(ms, src, dst)
    ensures SomeLimbo(trace, i, s, src, dst)
  {
    var k :| 0 <= k < |ms| && ms[k] == src && dst !in ms[..k + 1];
    assert ms[..k + 1][k] == src;
    assert trace[i + k] == AssignState(mid, s, ms[..k + 1], dst);
  }

  /** The slot has been moved: the source is empty, the target holds everything that was visible, and every master
      told follows the target. */
  ghost predicate Moved(before: Column, after: Column, ms: seq<NodeId>, src: NodeId, dst: NodeId) {
    && after.Keys == before.Keys && src in after && after[src].keys == map[]
    && (dst in after ==> after[dst].keys == Visible(before, src, dst))
    && (forall n | n in after && n in ms :: after[n].owner == dst)
  }

  /** A moved slot stays moved, however often it is moved again. */
  lemma StaysMoved(before: Column, moved: Column, after: Column, ms: seq<NodeId>, src: NodeId, dst: NodeId)
    requires Moved(before, moved, ms, src, dst) && Advances(moved, after, src, dst)
    ensures Moved(before, after, ms, src, dst)
  {
    hide InFlight, Backed;
    if dst in moved {
      assert after[src].keys == map[];
      DrainedToTarget(moved, after, src, dst);
      assert Visible(moved, src, dst) == moved[dst].keys;
    }
  }

  lemma AssignedIsMoved(before: Column, mid: Column, ms: seq<NodeId>, src: NodeId, dst: NodeId)
    requires Advances(before, mid, src, dst) && src in mid && mid[src].keys == map[]
    ensures Moved(before, AssignOn(mid, ms, dst), ms, src, dst)
  {
    hide InFlight, Backed;
    if dst in mid {
      DrainedToTarget(before, mid, src, dst);
    }
  }

  /** What one iteration of MoveSlots does, whether it ends in success or in an error: every state it
      passes through is a later state of the migration (`Advances`). On success the slot is moved, and handed over
      if it was in flight. It stays readable all along if the target is told before the source, and
      is unreadable at some point of a complete handover if the source is told first. */
  ghost predicate SlotMove(
    c0: State, c: State, trace: seq<State>, i: nat, s: int, ms: seq<NodeId>, src: NodeId, dst: NodeId, ok: bool)
  {
    && Within(c0, c, s, src, dst)
    && TraceWithin(trace, i, c0, s, src, dst)
    && (ok ==> s in c0 && Moved(c0[s], c[s], ms, src, dst))
    && (s in c0 && InFlight(c0[s], src, dst) ==>
          && (ok && (forall n | n in c0[s] :: n in ms) ==> c[s] == HandedOver(c0[s], src, dst))
          && (Precedes(ms, dst, src) && !Limbo(c0[s], src, dst) ==>
                !Limbo(c[s], src, dst) && NoLimbo(trace, i, s, src, dst))
          && (ok && Precedes(ms, src, dst) && c0[s][dst].owner == src ==> SomeLimbo(trace, i, s, src, dst)))
  }

  lemma QuietTrans(c0: State, c: State, c': State, s: int, src: NodeId, dst: NodeId)
    requires Quiet(c0, c, s, src, dst) && Quiet(c, c', s, src, dst)
    ensures Quiet(c0, c', s, src, dst)
  {
    hide Advances;
    if s in c0 {
      AdvancesOn(c0[s], c[s], c'[s], src, dst);
    }
  }

  lemma QuietNoLimbo(c0: State, c: State, s: int, src: NodeId, dst: NodeId)
    requires Quiet(c0, c, s, src, dst) && s in c0 && !Limbo(c0[s], src, dst)
    ensures !Limbo(c[s], src, dst)
  {
  }

  /** A move that stopped before anyone was told about the new owner. */
  lemma QuietMove(c0: State, c: State, trace: seq<State>, i: nat, s: int, ms: seq<NodeId>, src: NodeId, dst: NodeId)
    requires Quiet(c0, c, s, src, dst) && TraceQuiet(trace, i, c0, s, src, dst)
    ensures SlotMove(c0, c, trace, i, s, ms, src, dst, false)
  {
    if s in c0 && !Limbo(c0[s], src, dst) {
      QuietNoLimbo(c0, c, s, src, dst);
    }
    forall j | i <= j < |trace|
      ensures Within(c0, trace[j], s, src, dst)
      ensures s in c0 && !Limbo(c0[s], src, dst) ==> !(s in trace[j] && Limbo(trace[j][s], src, dst))
    {
      if s in c0 && !Limbo(c0[s], src, dst) {
        QuietNoLimbo(c0, trace[j], s, src, dst);
      }
    }
  }

  /** A move that got as far as assigning the owner, from state `mid` and trace position `k` on. */
  lemma AssignMove(
    c0: State, mid: State, c: State, trace: seq<State>, i: nat, k: nat, s: int,
    ms: seq<NodeId>, src: NodeId, dst: NodeId, ok: bool)
    requires i <= k <= |trace| && Quiet(c0, mid, s, src, dst) && TraceQuiet(trace[..k], i, c0, s, src, dst)
    requires s in mid && src in mid[s] && mid[s][src].keys == map[]
    requires AssignTrace(trace, k, mid, s, ms, dst, ok)
    requires c == mid || (|trace| > k && c == trace[|trace| - 1])
    requires ok ==> c == AssignState(mid, s, ms, dst)
    ensures SlotMove(c0, c, trace, i, s, ms, src, dst, ok)
  {
    AssignTraceWithin(c0, mid, trace, k, s, ms, src, dst, ok);
    assert forall j | i <= j < k :: trace[j] == trace[..k][j];
    assert TraceWithin(trace, i, c0, s, src, dst);
    assert Within(c0, c, s, src, dst);
    if ok {
      AssignedIsMoved(c0[s], mid[s], ms, src, dst);
    }
    hide Moved, Keeps;
    if InFlight(c0[s], src, dst) {
      assert InFlight(mid[s], src, dst);
      if ok && forall n | n in c0[s] :: n in ms {
        AssignOnAll(mid[s], ms, src, dst);
        ResumeIsConfluent(c0[s], mid[s], src, dst);
      }
      if Precedes(ms, dst, src) && !Limbo(c0[s], src, dst) {
        QuietNoLimbo(c0, mid, s, src, dst);
        AssignTraceNoLimbo(mid, trace, k, s, ms, src, dst, ok);
        forall j | i <= j < k
          ensures !(s in trace[j] && Limbo(trace[j][s], src, dst))
        {
          QuietNoLimbo(c0, trace[j], s, src, dst);
        }
      }
      if ok && Precedes(ms, src, dst) && c0[s][dst].owner == src {
        AssignTraceSomeLimbo(mid, trace, k, s, ms, src, dst);
      }
    }
  }

  // ---- a run over many slots ----

  /** Only the listed slots differ, and their migrations have advanced. */
  ghost predicate AllWithin(c0: State, c: State, list: seq<int>, src: NodeId, dst: NodeId) {
    && c.Keys == c0.Keys
    && forall t | t in c0 :: if t in list then Advances(c0[t], c[t], src, dst) else c[t] == c0[t]
  }

  ghost predicate TraceAllWithin(trace: seq<State>, i: nat, c0: State, list: seq<int>, src: NodeId, dst: NodeId) {
    forall j | i <= j < |trace| :: AllWithin(c0, trace[j], list, src, dst)
  }

  /** Every listed slot is moved. */
  ghost predicate AllMoved(c0: State, c: State, list: seq<int>, ms: seq<NodeId>, src: NodeId, dst: NodeId)
    requires c.Keys == c0.Keys
  {
    forall t | t in list :: t in c0 && Moved(c0[t], c[t], ms, src, dst)
  }

  /** Every listed slot that was in flight is handed over. */
  ghost predicate AllHandedOver(c0: State, c: State, list: seq<int>, ms: seq<NodeId>, src: NodeId, dst: NodeId)
    requires c.Keys == c0.Keys
  {
    forall t | t in list && t in c0 && InFlight(c0[t], src, dst) && (forall n | n in c0[t] :: n in ms) ::
      c[t] == HandedOver(c0[t], src, dst)
  }

  /** No slot that could be read at the start is ever in limbo. */
  ghost predicate AlwaysReadable(c0: State, c: State, trace: seq<State>, i: nat, src: NodeId, dst: NodeId)
    requires c.Keys == c0.Keys
  {
    forall t | t in c0 && InFlight(c0[t], src, dst) && !Limbo(c0[t], src, dst) ::
      !Limbo(c[t], src, dst) && NoLimbo(trace, i, t, src, dst)
  }

  /** Every listed slot the target did not already claim was in limbo at some point. */
  ghost predicate AllInterrupted(c0: State, trace: seq<State>, i: nat, list: seq<int>, src: NodeId, dst: NodeId) {
    forall t | t in list && t in c0 && InFlight(c0[t], src, dst) && c0[t][dst].owner == src ::
      SomeLimbo(trace, i, t, src, dst)
  }

  /** MoveSlots has moved the first `done` slots of the list and touched the first `touched`. */
  ghost predicate Run(
    c0: State, c: State, trace: seq<State>, i: nat, list: seq<int>, done: nat, touched: nat,
    ms: seq<NodeId>, src: NodeId, dst: NodeId)
    requires done <= touched <= |list|
  {
    && AllWithin(c0, c, list[..touched], src, dst)
    && TraceAllWithin(trace, i, c0, list[..touched], src, dst)
    && AllMoved(c0, c, list[..done], ms, src, dst)
    && (Distinct(list) ==> AllHandedOver(c0, c, list[..done], ms, src, dst))
    && (Precedes(ms, dst, src) ==> AlwaysReadable(c0, c, trace, i, src, dst))
    && (Distinct(list) && Precedes(ms, src, dst) ==> AllInterrupted(c0, trace, i, list[..done], src, dst))
  }

  /** In every state of a run, a source that redirects clients to the target is backed by it, for every slot of
      which that held at the start, whatever order the masters are told in. */
  lemma RedirectsStayBacked(
    c0: State, c: State, trace: seq<State>, i: nat, list: seq<int>, done: nat, touched: nat,
    ms: seq<NodeId>, src: NodeId, dst: NodeId)
    requires done <= touched <= |list| && Run(c0, c, trace, i, list, done, touched, ms, src, dst)
    ensures forall t | t in c0 && Backed(c0[t], src, dst) :: Backed(c[t], src, dst)
    ensures forall t, j | t in c0 && Backed(c0[t], src, dst) && i <= j < |trace| ::
              t in trace[j] && Backed(trace[j][t], src, dst)
  {
    hide InFlight, Backed, SameVisible, AllMoved, AllHandedOver, AlwaysReadable, AllInterrupted;
    forall t, j | t in c0 && Backed(c0[t], src, dst) && i <= j < |trace|
      ensures t in trace[j] && Backed(trace[j][t], src, dst)
    {
      assert AllWithin(c0, trace[j], list[..touched], src, dst);
    }
  }

  /** The listed slots exist, each in flight between the two nodes, and every node listed as a master has a view of
      them. Replicas may be listed too. */
  ghost predicate Movable(c: State, list: seq<int>, nodes: seq<NodeInfo>, src: NodeId, dst: NodeId) {
    forall t | t in list :: t in c && InFlight(c[t], src, dst) && HasMasters(c[t], nodes)
  }

  ghost predicate HasMasters(col: Column, nodes: seq<NodeInfo>) {
    forall i | 0 <= i < |nodes| && nodes[i].IsPrimary() :: nodes[i].id in col
  }

  lemma HasPrimaries(col: Column, nodes: seq<NodeInfo>)
    requires HasMasters(col, nodes)
    ensures forall m | m in Primaries(nodes) :: m in col
  {
    hide Primaries;
    forall m | m in Primaries(nodes)
      ensures m in col
    {
      InPrimaries(nodes, m);
    }
  }

  lemma StaysMovable(
    c0: State, c: State, trace: seq<State>, i: nat, list: seq<int>, k: nat, nodes: seq<NodeInfo>,
    src: NodeId, dst: NodeId)
    requires k < |list| && Movable(c0, list, nodes, src, dst)
    requires Run(c0, c, trace, i, list, k, k, Primaries(nodes), src, dst)
    ensures list[k] in c && InFlight(c[list[k]], src, dst) && forall m | m in Primaries(nodes) :: m in c[list[k]]
  {
    hide Primaries, AllMoved, AllHandedOver, AlwaysReadable, AllInterrupted;
    var t := list[k];
    assert if t in list[..k] then Advances(c0[t], c[t], src, dst) else c[t] == c0[t];
    hide InFlight, SameVisible, Backed;
    HasPrimaries(c[t], nodes);
  }

  lemma WithinNext(c0: State, c: State, c': State, list: seq<int>, k: nat, src: NodeId, dst: NodeId)
    requires k < |list| && AllWithin(c0, c, list[..k], src, dst) && Within(c, c', list[k], src, dst)
    ensures AllWithin(c0, c', list[..k + 1], src, dst)
  {
    hide Advances;
    forall t | t in c0
      ensures if t in list[..k + 1] then Advances(c0[t], c'[t], src, dst) else c'[t] == c0[t]
    {
      assert t in list[..k + 1] <==> t in list[..k] || t == list[k];
      if t in list[..k] && t == list[k] {
        AdvancesOn(c0[t], c[t], c'[t], src, dst);
      }
    }
  }

  lemma MovedNext(
    c0: State, c: State, c': State, list: seq<int>, k: nat, ms: seq<NodeId>, src: NodeId, dst: NodeId, ok: bool)
    requires k < |list| && AllWithin(c0, c, list[..k], src, dst) && Within(c, c', list[k], src, dst)
    requires AllMoved(c0, c, list[..k], ms, src, dst)
    requires ok ==> list[k] in c && Moved(c[list[k]], c'[list[k]], ms, src, dst)
    ensures AllMoved(c0, c', if ok then list[..k + 1] else list[..k], ms, src, dst)
  {
    hide Advances, Moved;
    var s := list[k];
    forall t | t in (if ok then list[..k + 1] else list[..k])
      ensures t in c0 && Moved(c0[t], c'[t], ms, src, dst)
    {
      if t in list[..k] {
        if t == s {
          StaysMoved(c0[t], c[t], c'[t], ms, src, dst);
        }
      } else {
        assert t == s && c[t] == c0[t];
      }
    }
  }

  lemma WithinMore(c0: State, c: State, list: seq<int>, k: nat, src: NodeId, dst: NodeId)
    requires k < |list| && AllWithin(c0, c, list[..k], src, dst)
    ensures AllWithin(c0, c, list[..k + 1], src, dst)
  {
    hide Advances;
    forall t | t in c0 && t !in list[..k]
      ensures Advances(c0[t], c[t], src, dst)
    {
      AdvancesNot(c0[t], src, dst);
    }
    assert forall t | t in list[..k] :: t in list[..k + 1];
  }

  lemma HandedOverNext(
    c0: State, c: State, c': State, list: seq<int>, k: nat, ms: seq<NodeId>, src: NodeId, dst: NodeId, ok: bool)
    requires k < |list| && Distinct(list)
    requires AllWithin(c0, c, list[..k], src, dst) && Within(c, c', list[k], src, dst)
    requires AllHandedOver(c0, c, list[..k], ms, src, dst)
    requires ok && list[k] in c && InFlight(c[list[k]], src, dst) && (forall n | n in c[list[k]] :: n in ms) ==>
               c'[list[k]] == HandedOver(c[list[k]], src, dst)
    ensures AllHandedOver(c0, c', if ok then list[..k + 1] else list[..k], ms, src, dst)
  {
    hide Advances, HandedOver;
    assert list[k] !in list[..k];
    forall t | t in (if ok then list[..k + 1] else list[..k]) && t in c0
               && InFlight(c0[t], src, dst) && (forall n | n in c0[t] :: n in ms)
      ensures c'[t] == HandedOver(c0[t], src, dst)
    {
      if t == list[k] {
        assert c[t] == c0[t];
      } else {
        assert t in list[..k];
        assert c'[t] == c[t];
      }
    }
  }

  lemma ReadableNext(
    c0: State, c: State, c': State, trace: seq<State>, i: nat, k: nat, list: seq<int>, done: nat,
    s: int, ms: seq<NodeId>, src: NodeId, dst: NodeId, ok: bool)
    requires i <= k <= |trace| && done <= |list| && AllWithin(c0, c, list[..done], src, dst)
    requires AlwaysReadable(c0, c, trace[..k], i, src, dst) && Precedes(ms, dst, src)
    requires SlotMove(c, c', trace, k, s, ms, src, dst, ok)
    ensures AlwaysReadable(c0, c', trace, i, src, dst)
  {
    hide Keeps, InFlight, HandedOver, Moved;
    forall t | t in c0 && InFlight(c0[t], src, dst) && !Limbo(c0[t], src, dst)
      ensures !Limbo(c'[t], src, dst) && NoLimbo(trace, i, t, src, dst)
    {
      assert NoLimbo(trace[..k], i, t, src, dst) && !Limbo(c[t], src, dst);
      if t in list[..done] {
        assert Advances(c0[t], c[t], src, dst);
      }
      assert InFlight(c[t], src, dst);
      forall j | i <= j < |trace|
        ensures !(t in trace[j] && Limbo(trace[j][t], src, dst))
      {
        if j < k {
          assert trace[j] == trace[..k][j];
        } else if t != s {
          assert Within(c, trace[j], s, src, dst);
        }
      }
    }
  }

  lemma InterruptedNext(
    c0: State, c: State, c': State, trace: seq<State>, i: nat, k: nat, list: seq<int>, done: nat,
    ms: seq<NodeId>, src: NodeId, dst: NodeId, ok: bool)
    requires i <= k <= |trace| && done < |list| && Distinct(list) && AllWithin(c0, c, list[..done], src, dst)
    requires AllInterrupted(c0, trace[..k], i, list[..done], src, dst) && Precedes(ms, src, dst)
    requires SlotMove(c, c', trace, k, list[done], ms, src, dst, ok)
    ensures AllInterrupted(c0, trace, i, if ok then list[..done + 1] else list[..done], src, dst)
  {
    assert list[done] !in list[..done];
    forall t | t in (if ok then list[..done + 1] else list[..done]) && t in c0
               && InFlight(c0[t], src, dst) && c0[t][dst].owner == src
      ensures SomeLimbo(trace, i, t, src, dst)
    {
      if t == list[done] {
        assert c[t] == c0[t];
        assert SomeLimbo(trace, k, t, src, dst);
      } else {
        assert t in list[..done];
        assert SomeLimbo(trace[..k], i, t, src, dst);
        var j :| i <= j < k && t in trace[..k][j] && Limbo(trace[..k][j][t], src, dst);
        assert trace[j] == trace[..k][j];
      }
    }
  }

  lemma RunStart(c: State, trace: seq<State>, list: seq<int>, ms: seq<NodeId>, src: NodeId, dst: NodeId)
    ensures Run(c, c, trace, |trace|, list, 0, 0, ms, src, dst)
  {
  }

  lemma RunNext(
    c0: State, c: State, c': State, trace: seq<State>, i: nat, k: nat, list: seq<int>, done: nat,
    ms: seq<NodeId>, src: NodeId, dst: NodeId, ok: bool)
    requires i <= k <= |trace| && done < |list| && Run(c0, c, trace[..k], i, list, done, done, ms, src, dst)
    requires SlotMove(c, c', trace, k, list[done], ms, src, dst, ok)
    ensures Run(c0, c', trace, i, list, if ok then done + 1 else done, done + 1, ms, src, dst)
  {
    hide Advances, Moved, InFlight, HandedOver, Limbo;
    WithinNext(c0, c, c', list, done, src, dst);
    MovedNext(c0, c, c', list, done, ms, src, dst, ok);
    forall j | i <= j < |trace|
      ensures AllWithin(c0, trace[j], list[..done + 1], src, dst)
    {
      if j < k {
        assert trace[j] == trace[..k][j];
        WithinMore(c0, trace[j], list, done, src, dst);
      } else {
        WithinNext(c0, c, trace[j], list, done, src, dst);
      }
    }
    if Distinct(list) {
      HandedOverNext(c0, c, c', list, done, ms, src, dst, ok);
      if Precedes(ms, src, dst) {
        InterruptedNext(c0, c, c', trace, i, k, list, done, ms, src, dst, ok);
      }
    }
    if Precedes(ms, dst, src) {
      ReadableNext(c0, c, c', trace, i, k, list, done, list[done], ms, src, dst, ok);
    }
  }

  /** The last listed node with this ID. */
  function FindNode(nodes: seq<NodeInfo>, id: string): Option<NodeInfo> {
    if nodes == [] then None
    else if nodes[|nodes| - 1].id == id then Some(nodes[|nodes| - 1])
    else FindNode(nodes[..|nodes| - 1], id)
  }

  lemma {:induction false} FindNodeIs(nodes: seq<NodeInfo>, id: string)
    ensures FindNode(nodes, id).None? ==> forall i | 0 <= i < |nodes| :: nodes[i].id != id
    ensures FindNode(nodes, id).Some? ==>
              exists i :: 0 <= i < |nodes| && nodes[i] == FindNode(nodes, id).value && nodes[i].id == id
                          && forall j | i < j < |nodes| :: nodes[j].id != id
  {
    if nodes != [] && nodes[|nodes| - 1].id != id {
      var rest := nodes[..|nodes| - 1];
      FindNodeIs(rest, id);
      assert forall i | 0 <= i < |rest| :: rest[i] == nodes[i];
    }
  }

  /** The IDs of the listed primaries, in listed order. */
  function Primaries(nodes: seq<NodeInfo>): seq<NodeId> {
    if nodes == [] then []
    else
      var last := nodes[|nodes| - 1];
      Primaries(nodes[..|nodes| - 1]) + if last.IsPrimary() then [last.id] else []
  }

  lemma {:induction false} InPrimaries(nodes: seq<NodeInfo>, id: NodeId)
    ensures id in Primaries(nodes) <==> exists i :: 0 <= i < |nodes| && nodes[i].id == id && nodes[i].IsPrimary()
  {
    if nodes != [] {
      var rest := nodes[..|nodes| - 1];
      assert forall i | 0 <= i < |rest| :: rest[i] == nodes[i];
      InPrimaries(rest, id);
    }
  }

  /** `ids` are the masters among the nodes, each as often as it is listed, in listed order: `at` has their
      positions. */
  ghost predicate MastersAt(nodes: seq<NodeInfo>, ids: seq<NodeId>, at: seq<int>) {
    && |at| == |ids| && Increasing(at)
    && (forall k | 0 <= k < |at| :: 0 <= at[k] < |nodes| && ids[k] == nodes[at[k]].id)
    && forall i | 0 <= i < |nodes| :: i in at <==> nodes[i].IsPrimary()
  }

  lemma MastersAtNext(nodes: seq<NodeInfo>, n: NodeInfo, ids: seq<NodeId>, at: seq<int>)
    requires MastersAt(nodes, ids, at)
    ensures if n.IsPrimary() then MastersAt(nodes + [n], ids + [n.id], at + [|nodes|])
            else MastersAt(nodes + [n], ids, at)
  {
    hide NodeInfo.IsPrimary;
    var more := nodes + [n];
    assert forall i | 0 <= i < |nodes| :: more[i] == nodes[i];
    assert more[|nodes|] == n && |nodes| !in at;
    if n.IsPrimary() {
      var at' := at + [|nodes|];
      assert forall i :: i in at' <==> i in at || i == |nodes|;
    }
  }

  lemma {:induction false} PrimariesAre(nodes: seq<NodeInfo>) returns (at: seq<int>)
    ensures MastersAt(nodes, Primaries(nodes), at)
  {
    at := [];
    if nodes != [] {
      var rest, last := nodes[..|nodes| - 1], nodes[|nodes| - 1];
      at := PrimariesAre(rest);
      MastersAtNext(rest, last, Primaries(rest), at);
      assert rest + [last] == nodes;
      if last.IsPrimary() {
        at := at + [|rest|];
      }
      hide MastersAt;
    }
  }

  /** `masterCls`: the listed masters. */
  method ListPrimaries(nodes: seq<NodeInfo>) returns (masters: seq<NodeId>)
    ensures masters == Primaries(nodes)
  {
    masters := [];
    for i := 0 to |nodes|
      invariant masters == Primaries(nodes[..i])
    {
      assert nodes[..i + 1][..i] == nodes[..i];
      if nodes[i].IsPrimary() {
        masters := masters + [nodes[i].id];
      }
    }
    assert nodes[..|nodes|] == nodes;
  }

  /** The first n slots of the node. */
  function SlotsToMove(from: NodeInfo, n: nat): seq<int> {
    var all := Expand(from.slots);
    if |all| <= n then all else all[..n]
  }

  lemma SpanStep(lo: int, hi: int, rest: seq<int>)
    ensures lo <= hi ==> Span(lo, hi) + rest == [lo] + (Span(lo + 1, hi) + rest)
    ensures hi < lo ==> Span(lo, hi) + rest == rest
  {
  }

  lemma ExpandStep(rs: seq<SlotRange>, i: nat)
    requires i < |rs|
    ensures Expand(rs[i..]) == Span(rs[i].start, rs[i].end) + Expand(rs[i + 1..])
  {
    assert rs[i..][1..] == rs[i + 1..];
  }

  lemma Shift(list: seq<int>, s: int, rest: seq<int>)
    ensures list + ([s] + rest) == (list + [s]) + rest
  {
  }

  /** `var slots []int` and the loops that fill it: the ranges in order, cut off after n slots. */
  method CollectSlots(from: NodeInfo, n: nat) returns (list: seq<int>)
    ensures list == SlotsToMove(from, n)
  {
    hide Span, Expand, SlotsToMove;
    list := [];
    var i := 0;
    ghost var all, rest := Expand(from.slots), Expand(from.slots);
    assert from.slots[0..] == from.slots;
    while i < |from.slots| && |list| < n
      invariant 0 <= i <= |from.slots| && |list| <= n
      invariant list + rest == all
      invariant |list| < n ==> rest == Expand(from.slots[i..])
    {
      var s, end := from.slots[i].start, from.slots[i].end;
      ghost var tail := Expand(from.slots[i + 1..]);
      ExpandStep(from.slots, i);
      while s <= end && |list| < n
        invariant |list| <= n
        invariant list + rest == all && rest == Span(s, end) + tail
      {
        SpanStep(s, end, tail);
        Shift(list, s, Span(s + 1, end) + tail);
        list := list + [s];
        rest := Span(s + 1, end) + tail;
        s := s + 1;
      }
      SpanStep(s, end, tail);
      i := i + 1;
    }
    TakenAll(from, n, list, rest, i);
  }

  lemma TakenAll(from: NodeInfo, n: nat, list: seq<int>, rest: seq<int>, i: nat)
    requires i <= |from.slots| && |list| <= n && list + rest == Expand(from.slots)
    requires |list| < n ==> i == |from.slots| && rest == Expand(from.slots[i..])
    ensures list == SlotsToMove(from, n)
  {
    assert list == Expand(from.slots)[..|list|];
  }

  /** `assignOwner`: SETSLOT s NODE to on every master in turn, up to the first error. */
  method AssignOwner(sv: Servers, s: int, masters: seq<NodeId>, to: NodeId, ghost from: NodeId) returns (ok: bool)
    requires s in sv.slots
    modifies sv
    ensures sv.faults >= old(sv.faults)
    ensures (sv.faults == old(sv.faults) && Drained(old(sv.slots)[s], from, to)
             && (forall m | m in masters :: m in old(sv.slots)[s])) ==> ok
    ensures old(sv.trace) <= sv.trace
    ensures AssignTrace(sv.trace, |old(sv.trace)|, old(sv.slots), s, masters, to, ok)
    ensures ok ==> sv.slots == AssignState(old(sv.slots), s, masters, to)
    ensures sv.slots == old(sv.slots) || (|sv.trace| > |old(sv.trace)| && sv.slots == sv.trace[|sv.trace| - 1])
  {
    hide Drained, AssignOn, SetNode, AssignTrace, AssignState;
    AssignStateNone(sv.slots, s, to);
    AssignTraceStart(sv.trace, sv.slots, s, masters, to);
    for i := 0 to |masters|
      invariant old(sv.trace) <= sv.trace && |sv.trace| == |old(sv.trace)| + i && sv.faults >= old(sv.faults)
      invariant sv.slots == AssignState(old(sv.slots), s, masters[..i], to)
      invariant AssignTrace(sv.trace, |old(sv.trace)|, old(sv.slots), s, masters[..i], to, true)
      invariant sv.slots == old(sv.slots) || (|sv.trace| > |old(sv.trace)| && sv.slots == sv.trace[|sv.trace| - 1])
    {
      AssignStateStep(old(sv.slots), s, masters, i, to);
      if Drained(old(sv.slots)[s], from, to) && masters[i] in old(sv.slots)[s] {
        AssignAccepted(old(sv.slots)[s], masters[..i], masters[i], from, to);
      }
      ghost var before := sv.trace;
      ok := sv.Send(s, SetNode(sv.slots[s], masters[i], to));
      AssignTraceStep(before, sv.trace[|sv.trace| - 1], |old(sv.trace)|, old(sv.slots), s, masters, i, to, ok);
      if !ok {
        return;
      }
    }
    assert masters[..|masters|] == masters;
    ok := true;
  }

  /** Step 1: IMPORTING on the target, then MIGRATING on the source. */
  method Handshake(sv: Servers, s: int, from: NodeId, to: NodeId) returns (ok: bool)
    requires s in sv.slots && from in sv.slots[s]
    modifies sv
    ensures old(sv.trace) <= sv.trace && TraceQuiet(sv.trace, |old(sv.trace)|, old(sv.slots), s, from, to)
    ensures Quiet(old(sv.slots), sv.slots, s, from, to)
    ensures ok ==> s in sv.slots && from in sv.slots[s] && sv.slots[s][from].migrating == Some(to)
    ensures ok ==> to in sv.slots[s] && from != to && Accepts(sv.slots[s], to) && Sends(sv.slots[s], from)
    ensures sv.faults >= old(sv.faults)
    ensures (sv.faults == old(sv.faults) && InFlight(old(sv.slots)[s], from, to)
             && old(sv.slots)[s][from].keys != map[]) ==> ok
  {
    QuietRefl(sv.slots, s, from, to);
    ImportingIsQuiet(old(sv.slots), sv.slots, s, from, to);
    ok := sv.Send(s, SetImporting(sv.slots[s], to, from));
    if !ok {
      return;
    }
    MigratingIsQuiet(old(sv.slots), sv.slots, s, from, to);
    ok := sv.Send(s, SetMigrating(sv.slots[s], from, to));
  }

  lemma AcceptsIsThere(col: Column, at: NodeId, n: NodeId, keys: seq<string>)
    requires at in col
    ensures Accepts(col, n) ==> n in col && RestoresAll(col, at, n, keys)
  {
  }

  /** A fetch finds a key unless there is none. */
  lemma FetchedSome(m: Keyspace, count: nat, keys: seq<string>)
    requires Fetched(m, count, keys) && count > 0
    ensures if keys == [] then m == map[] else keys[0] in m && keys[0] in keys
  {
    if keys != [] {
      assert keys[0] in keys;
    }
  }

  /** Step 2: MIGRATE the slot's keys in batches of 128 until the source has none left. */
  method DrainKeys(sv: Servers, s: int, from: NodeId, to: NodeId) returns (ok: bool)
    requires s in sv.slots && from in sv.slots[s] && sv.slots[s][from].migrating == Some(to)
    modifies sv
    ensures old(sv.trace) <= sv.trace && TraceQuiet(sv.trace, |old(sv.trace)|, old(sv.slots), s, from, to)
    ensures Quiet(old(sv.slots), sv.slots, s, from, to)
    ensures ok ==> s in sv.slots && from in sv.slots[s] && sv.slots[s][from].keys == map[]
    ensures sv.faults >= old(sv.faults)
    ensures (sv.faults == old(sv.faults) && Accepts(old(sv.slots)[s], to) && Sends(old(sv.slots)[s], from)
             && from != to) ==> ok
  {
    hide Quiet, Transfer, Within, Accepts, Sends, Restores, RestoresAll, Fetched;
    QuietRefl(sv.slots, s, from, to);
    while true
      invariant sv.faults >= old(sv.faults)
      invariant s in sv.slots && (Accepts(old(sv.slots)[s], to) ==> Accepts(sv.slots[s], to))
      invariant Sends(old(sv.slots)[s], from) ==> Sends(sv.slots[s], from)
      invariant s in sv.slots && from in sv.slots[s] && sv.slots[s][from].migrating == Some(to)
      invariant old(sv.trace) <= sv.trace && TraceQuiet(sv.trace, |old(sv.trace)|, old(sv.slots), s, from, to)
      invariant Quiet(old(sv.slots), sv.slots, s, from, to)
      decreases |sv.slots[s][from].keys|
    {
      var keys;
      ok, keys := sv.GetKeysInSlot(s, from, 128);
      if !ok {
        return;
      }
      FetchedSome(sv.slots[s][from].keys, 128, keys);
      if |keys| == 0 {
        return;
      }
      ghost var before := sv.slots;
      ghost var copied, deleted;
      AcceptsIsThere(before[s], from, to, keys);
      ok, copied, deleted := sv.MigrateReplace(s, from, to, keys);
      if ok || sv.slots != before {
        TransferIsQuiet(old(sv.slots), before, s, from, to, copied, deleted);
      }
      if !ok {
        return;
      }
      Shrinks(before[s][from].keys, deleted, keys[0]);
    }
  }

  /** Probe the slot; if it has keys, set the markers and drain it. */
  method EmptySlot(sv: Servers, s: int, from: NodeId, to: NodeId) returns (ok: bool)
    modifies sv
    ensures old(sv.trace) <= sv.trace && TraceQuiet(sv.trace, |old(sv.trace)|, old(sv.slots), s, from, to)
    ensures Quiet(old(sv.slots), sv.slots, s, from, to)
    ensures ok ==> s in sv.slots && from in sv.slots[s] && sv.slots[s][from].keys == map[]
    ensures sv.faults >= old(sv.faults)
    ensures sv.faults == old(sv.faults) && s in old(sv.slots) && InFlight(old(sv.slots)[s], from, to) ==> ok
  {
    QuietRefl(sv.slots, s, from, to);
    var probe;
    ok, probe := sv.GetKeysInSlot(s, from, 1);
    if !ok || |probe| == 0 {
      return;
    }
    assert probe[0] in probe;
    ok := Handshake(sv, s, from, to);
    if !ok {
      return;
    }
    ghost var mid, start := sv.slots, |sv.trace|;
    ok := DrainKeys(sv, s, from, to);
    QuietTrans(old(sv.slots), mid, sv.slots, s, from, to);
    forall j | start <= j < |sv.trace|
      ensures Quiet(old(sv.slots), sv.trace[j], s, from, to)
    {
      QuietTrans(old(sv.slots), mid, sv.trace[j], s, from, to);
    }
  }

  /** The body of MoveSlots' loop: move one slot with its keys. */
  method MoveSlot(sv: Servers, s: int, masters: seq<NodeId>, from: NodeId, to: NodeId) returns (ok: bool)
    modifies sv
    ensures old(sv.trace) <= sv.trace
    ensures SlotMove(old(sv.slots), sv.slots, sv.trace, |old(sv.trace)|, s, masters, from, to, ok)
    ensures sv.faults >= old(sv.faults)
    ensures (sv.faults == old(sv.faults) && s in old(sv.slots) && InFlight(old(sv.slots)[s], from, to)
             && (forall m | m in masters :: m in old(sv.slots)[s])) ==> ok
  {
    ok := EmptySlot(sv, s, from, to);
    ghost var mid, start := sv.slots, |sv.trace|;
    if !ok {
      QuietMove(old(sv.slots), mid, sv.trace, |old(sv.trace)|, s, masters, from, to);
      return;
    }
    ok := AssignOwner(sv, s, masters, to, from);
    AssignMove(old(sv.slots), mid, sv.slots, sv.trace, |old(sv.trace)|, start, s, masters, from, to, ok);
  }

  /** Move up to n of one node's slots to another, with their keys. `listing` is the seed's CLUSTER NODES
      listing (None when that call fails). Whatever the outcome and whatever state the slots were in, at every
      command of the run each slot keeps its visible keys; see `Run`. */
  method MoveSlots(sv: Servers, listing: Option<seq<NodeInfo>>, fromID: NodeId, toID: NodeId, n: int)
    returns (moved: nat, err: bool)
    modifies sv
    ensures old(sv.trace) <= sv.trace
    ensures n <= 0 ==> !err && moved == 0 && sv.slots == old(sv.slots) && sv.trace == old(sv.trace)
    ensures n > 0 && (listing.None? || FindNode(listing.value, fromID).None? || FindNode(listing.value, toID).None?) ==>
              err && moved == 0 && sv.slots == old(sv.slots) && sv.trace == old(sv.trace)
    ensures n > 0 && listing.Some? && FindNode(listing.value, fromID).Some? && FindNode(listing.value, toID).Some? ==>
              var list := SlotsToMove(FindNode(listing.value, fromID).value, n);
              && moved <= |list| && (!err <==> moved == |list|)
              && Run(old(sv.slots), sv.slots, sv.trace, |old(sv.trace)|, list, moved, if err then moved + 1 else moved,
                     Primaries(listing.value), fromID, toID)
    ensures sv.faults >= old(sv.faults)
    ensures (sv.faults == old(sv.faults) && listing.Some?
             && FindNode(listing.value, fromID).Some? && FindNode(listing.value, toID).Some?
             && Movable(old(sv.slots), SlotsToMove(FindNode(listing.value, fromID).value, if n > 0 then n else 0),
                        listing.value, fromID, toID)) ==> !err
  {
    hide *;
    moved, err := 0, false;
    if n <= 0 {
      return;
    }
    if listing.None? {
      return 0, true;
    }
    var from := FindNode(listing.value, fromID);
    if from.None? || FindNode(listing.value, toID).None? {
      return 0, true;
    }
    var list := CollectSlots(from.value, n);
    var masters := ListPrimaries(listing.value);
    RunStart(sv.slots, sv.trace, list, masters, fromID, toID);
    while moved < |list|
      invariant moved <= |list| && !err && old(sv.trace) <= sv.trace && sv.faults >= old(sv.faults)
      invariant Run(old(sv.slots), sv.slots, sv.trace, |old(sv.trace)|, list, moved, moved, masters, fromID, toID)
    {
      ghost var c, before := sv.slots, sv.trace;
      if Movable(old(sv.slots), list, listing.value, fromID, toID) {
        StaysMovable(old(sv.slots), c, before, |old(sv.trace)|, list, moved, listing.value, fromID, toID);
      }
      var ok := MoveSlot(sv, list[moved], masters, fromID, toID);
      assert sv.trace[..|before|] == before;
      RunNext(old(sv.slots), c, sv.slots, sv.trace, |old(sv.trace)|, |before|, list, moved, masters, fromID, toID, ok);
      if !ok {
        err := true;
        return;
      }
      moved := moved + 1;
    }
  }
}
