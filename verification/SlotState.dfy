/** What the masters of a Valkey cluster keep about one hash slot, and what the CLUSTER SETSLOT and
    MIGRATE commands do to it.

    A `View` is one master's record of one slot: the owner it believes in, its two migration markers
    and the keys of the slot in its store. A `Column` is the slot's view on every master. Each command
    addresses one slot on one master (MIGRATE: on two), so it rewrites a single column and nothing else.
    The commands follow "Live reconfiguration" and "ASK redirection" of the Valkey Cluster
    Specification; a command the server refuses has no effect column (`None`). */
module SlotState {
  import opened Wrappers

  type NodeId = string

  type Keyspace = map<string, string>

  datatype View = View(owner: NodeId, importing: Option<NodeId>, migrating: Option<NodeId>, keys: Keyspace)

  type Column = map<NodeId, View>

  /** CLUSTER SETSLOT s IMPORTING from: refused by the slot's owner. */
  function SetImporting(col: Column, at: NodeId, from: NodeId): Option<Column> {
    if at in col && from in col && col[at].owner != at
    then Some(col[at := col[at].(importing := Some(from))])
    else None
  }

  /** CLUSTER SETSLOT s MIGRATING to: refused by anyone but the slot's owner. */
  function SetMigrating(col: Column, at: NodeId, to: NodeId): Option<Column> {
    if at in col && to in col && col[at].owner == at
    then Some(col[at := col[at].(migrating := Some(to))])
    else None
  }

  /** CLUSTER SETSLOT s STABLE: drops both markers. */
  function SetStable(col: Column, at: NodeId): Option<Column> {
    if at in col then Some(col[at := col[at].(importing := None, migrating := None)]) else None
  }

  /** CLUSTER SETSLOT s NODE n: an owner that still holds keys refuses to give the slot away.
      MIGRATING is dropped once no key is left, IMPORTING when the slot is assigned to the receiver. */
  function SetNode(col: Column, at: NodeId, n: NodeId): Option<Column> {
    if at in col && n in col && !(col[at].owner == at && n != at && col[at].keys != map[])
    then Some(col[at := col[at].(
      owner := n,
      migrating := if col[at].keys == map[] then None else col[at].migrating,
      importing := if n == at then None else col[at].importing)])
    else None
  }

  /** Whether a master lets MIGRATE send keys of the slot away: as its owner, or while importing it. Anybody else
      answers MOVED. */
  predicate Sends(col: Column, n: NodeId) {
    n in col && (col[n].owner == n || col[n].importing.Some?)
  }

  /** Whether a master lets MIGRATE restore any key of the slot: as its owner, or while importing it. An owner that
      migrates the slot away answers ASK for a key it does not have, and so takes in none. */
  predicate Accepts(col: Column, n: NodeId) {
    n in col && if col[n].owner == n then col[n].migrating == None else col[n].importing.Some?
  }

  /** As `Accepts`, for one key: an owner that migrates the slot away still overwrites a key it has. */
  predicate Restores(col: Column, n: NodeId, k: string) {
    Accepts(col, n) || (n in col && col[n].owner == n && k in col[n].keys)
  }

  /** The part of `m` whose keys are in `ks`. */
  function Restrict(m: Keyspace, ks: set<string>): Keyspace {
    map k | k in m && k in ks :: m[k]
  }

  /** What a MIGRATE from `at` to `to` leaves behind after restoring the keys `copied` on the target
      and deleting the keys `deleted` at the source. A MIGRATE that ends in an error may have stopped
      anywhere, so the two sets can differ. */
  function Transfer(col: Column, at: NodeId, to: NodeId, copied: set<string>, deleted: set<string>): Column
    requires at in col && to in col && at != to
  {
    col[to := col[to].(keys := col[to].keys + Restrict(col[at].keys, copied))]
       [at := col[at].(keys := col[at].keys - deleted)]
  }

  /** Whether a single-key MIGRATE without REPLACE goes through: the source has the key and may send it, the target
      takes keys in and does not have this one already. */
  predicate Migrates(col: Column, at: NodeId, to: NodeId, k: string) {
    Sends(col, at) && Accepts(col, to) && at != to && k in col[at].keys && k !in col[to].keys
  }

  /** The key restored on the target and not yet deleted at the source. */
  function CopyKey(col: Column, at: NodeId, to: NodeId, k: string): Column
    requires Migrates(col, at, to, k)
  {
    col[to := col[to].(keys := col[to].keys[k := col[at].keys[k]])]
  }

  /** The column after such a MIGRATE; one that fails changes nothing. */
  function MigrateKey(col: Column, at: NodeId, to: NodeId, k: string): Column {
    if Migrates(col, at, to, k)
    then CopyKey(col, at, to, k)[at := col[at].(keys := col[at].keys - {k})]
    else col
  }

  /** The columns agree on everything but keys. */
  ghost predicate SameMarks(a: Column, b: Column) {
    a.Keys == b.Keys && forall n | n in a :: b[n] == a[n].(keys := b[n].keys)
  }

  // ---- the invariant of a slot on its way from `src` to `dst` ----

  /** The slot is settled on `src`, settled on `dst`, or anywhere in between: the states an
      interrupted migration from `src` to `dst` can leave. */
  ghost predicate InFlight(col: Column, src: NodeId, dst: NodeId) {
    && src in col && dst in col && src != dst
    // nobody follows the target before the source is drained
    && (forall n | n in col :: col[n].owner == src || (col[n].owner == dst && col[src].keys == map[]))
    && (forall n | n in col && n != src && n != dst ::
          col[n].keys == map[] && col[n].importing == None && col[n].migrating == None)
    && col[src].importing == None && col[dst].migrating == None
    && (col[src].migrating == None || col[src].migrating == Some(dst))
    && (col[dst].importing == None || col[dst].importing == Some(src))
    // a source that redirects to the target is backed by it
    && (col[src].migrating == Some(dst) ==> col[dst].importing == Some(src) || col[dst].owner == dst)
    // keys reach the target only under the handshake
    && (col[dst].keys != map[] ==>
          && (col[src].migrating == Some(dst) || col[src].owner == dst)
          && (col[dst].importing == Some(src) || col[dst].owner == dst))
  }

  /** The slot's keys as a client sees them: the source's copy where there is one, else the target's. */
  function Visible(col: Column, src: NodeId, dst: NodeId): Keyspace
    requires src in col && dst in col
  {
    col[dst].keys + col[src].keys
  }

  /** The slot handed over: every master follows `dst`, no marker is left and `dst` alone holds keys. */
  function HandedOver(col: Column, src: NodeId, dst: NodeId): Column
    requires src in col && dst in col
  {
    map n | n in col :: View(dst, None, None, if n == dst then Visible(col, src, dst) else map[])
  }

  /** The slot at rest on `owner`, as a cluster without a migration under way has it. */
  ghost predicate Settled(col: Column, owner: NodeId) {
    && owner in col
    && forall n | n in col ::
         && col[n].owner == owner && col[n].importing == None && col[n].migrating == None
         && (n != owner ==> col[n].keys == map[])
  }

  /** Neither master of the pair serves the slot: each sends the client to the other. */
  predicate Limbo(col: Column, src: NodeId, dst: NodeId) {
    src in col && dst in col && col[src].owner == dst && col[dst].owner == src
  }

  lemma SettledIsInFlight(col: Column, src: NodeId, dst: NodeId)
    requires Settled(col, src) && dst in col && src != dst
    ensures InFlight(col, src, dst) && Visible(col, src, dst) == col[src].keys
  {
  }

  lemma HandedOverIsSettled(col: Column, src: NodeId, dst: NodeId)
    requires InFlight(col, src, dst)
    ensures Settled(HandedOver(col, src, dst), dst)
    ensures HandedOver(col, src, dst)[dst].keys == Visible(col, src, dst)
    ensures InFlight(HandedOver(col, src, dst), src, dst)
  {
  }

  /** No silent half-move: a slot with keys is marked on one of its two masters, or both name the same
      owner and that one holds every key. */
  lemma HalfMoveIsMarked(col: Column, src: NodeId, dst: NodeId)
    requires InFlight(col, src, dst) && Visible(col, src, dst) != map[]
    ensures || col[src].migrating.Some? || col[dst].importing.Some?
            || (col[src].owner == col[dst].owner && col[src].owner in {src, dst}
                && col[col[src].owner].keys == Visible(col, src, dst))
  {
    if col[src].owner == col[dst].owner == src {
      assert col[dst].keys == map[] ==> Visible(col, src, dst) == col[src].keys;
    } else {
      assert col[src].keys == map[];
      assert Visible(col, src, dst) == col[dst].keys;
    }
  }

  // ---- what each command of the protocol keeps ----

  /** A source that redirects clients to the target is backed by it: the target imports the slot from that source, or
      owns it. */
  predicate Backed(col: Column, src: NodeId, dst: NodeId) {
    src in col && col[src].migrating == Some(dst) ==>
      dst in col && (col[dst].importing == Some(src) || col[dst].owner == dst)
  }

  /** `m` is part of `m'`. */
  predicate PartOf(m: Keyspace, m': Keyspace) {
    forall k | k in m :: k in m' && m[k] == m'[k]
  }

  /** Every copy in `m` is a copy in `a` or in `b`. */
  predicate CopiedFrom(m: Keyspace, a: Keyspace, b: Keyspace) {
    forall k | k in m :: (k in a && m[k] == a[k]) || (k in b && m[k] == b[k])
  }

  /** The keys as clients of the pair see them are the same: the source has only lost copies, the target has only
      gained copies of the source's. */
  ghost predicate SameVisible(before: Column, after: Column, src: NodeId, dst: NodeId)
    requires src in before && dst in before && src in after && dst in after
  {
    && Visible(after, src, dst) == Visible(before, src, dst)
    && PartOf(after[src].keys, before[src].keys)
    && CopiedFrom(after[dst].keys, before[dst].keys, before[src].keys)
  }

  /** What holds of every later state of a migration from `src` to `dst`, whatever the slot was like before: no key
      is lost or changed, the keys of other masters are untouched, nobody follows the target before the source is
      drained, and a redirect that was backed still is. */
  ghost predicate Keeps(before: Column, after: Column, src: NodeId, dst: NodeId) {
    && after.Keys == before.Keys
    && (forall n | n in before && ((n != src && n != dst) || src !in before || dst !in before) ::
          after[n].keys == before[n].keys)
    && (src in before && dst in before ==> SameVisible(before, after, src, dst))
    && (forall n | n in before ::
          after[n].owner == before[n].owner || (after[n].owner == dst && src in before && after[src].keys == map[]))
    && (Backed(before, src, dst) ==> Backed(after, src, dst))
  }

  /** `after` is a later state of the same migration. One in flight stays in flight. */
  ghost predicate Advances(before: Column, after: Column, src: NodeId, dst: NodeId) {
    Keeps(before, after, src, dst) && (InFlight(before, src, dst) ==> InFlight(after, src, dst))
  }

  lemma AdvancesNot(col: Column, src: NodeId, dst: NodeId)
    ensures Advances(col, col, src, dst)
  {
  }

  lemma VisibleTrans(a: Column, b: Column, c: Column, src: NodeId, dst: NodeId)
    requires src in a && dst in a && src in b && dst in b && src in c && dst in c
    requires SameVisible(a, b, src, dst) && SameVisible(b, c, src, dst)
    ensures SameVisible(a, c, src, dst)
  {
  }

  lemma AdvancesOn(a: Column, b: Column, c: Column, src: NodeId, dst: NodeId)
    requires Advances(a, b, src, dst) && Advances(b, c, src, dst)
    ensures Advances(a, c, src, dst)
  {
    hide InFlight, Backed;
    if src in a && dst in a {
      VisibleTrans(a, b, c, src, dst);
      assert b[src].keys == map[] ==> c[src].keys == map[];
    }
    hide SameVisible;
  }

  /** Wherever a migration stopped, finishing it from there ends as if it had never stopped. */
  lemma ResumeIsConfluent(before: Column, stopped: Column, src: NodeId, dst: NodeId)
    requires InFlight(before, src, dst) && Advances(before, stopped, src, dst)
    ensures HandedOver(stopped, src, dst) == HandedOver(before, src, dst)
  {
    assert forall n | n in before :: HandedOver(stopped, src, dst)[n] == HandedOver(before, src, dst)[n];
  }

  /** Once the source is drained the target holds what was visible, whatever else the slot was like. */
  lemma DrainedToTarget(before: Column, after: Column, src: NodeId, dst: NodeId)
    requires Advances(before, after, src, dst) && src in before && dst in before && after[src].keys == map[]
    ensures after[dst].keys == Visible(before, src, dst)
  {
    assert Visible(after, src, dst) == after[dst].keys;
  }

  lemma ImportingAdvances(col: Column, src: NodeId, dst: NodeId)
    requires SetImporting(col, dst, src).Some?
    ensures Advances(col, SetImporting(col, dst, src).value, src, dst)
  {
  }

  lemma MigratingAdvances(col: Column, src: NodeId, dst: NodeId)
    requires SetMigrating(col, src, dst).Some? && dst in col && col[dst].importing == Some(src)
    ensures Advances(col, SetMigrating(col, src, dst).value, src, dst)
  {
  }

  /** Copying keys and then deleting some of the copied ones at the source hides nothing. */
  lemma TransferHidesNothing(source: Keyspace, target: Keyspace, copied: set<string>, deleted: set<string>)
    requires deleted <= copied
    ensures (target + Restrict(source, copied)) + (source - deleted) == target + source
    ensures PartOf(source - deleted, source) && CopiedFrom(target + Restrict(source, copied), target, source)
  {
  }

  lemma TransferAdvances(col: Column, src: NodeId, dst: NodeId, copied: set<string>, deleted: set<string>)
    requires src in col && dst in col && src != dst && col[src].migrating == Some(dst)
    requires deleted <= copied
    ensures Advances(col, Transfer(col, src, dst, copied, deleted), src, dst)
  {
    var after := Transfer(col, src, dst, copied, deleted);
    TransferHidesNothing(col[src].keys, col[dst].keys, copied, deleted);
    assert forall n | n in col :: after[n] == col[n].(keys := after[n].keys);
    assert forall n | n in col && n != src && n != dst :: after[n] == col[n];
    assert col[src].keys == map[] ==> after[src].keys == map[];
    hide Transfer, PartOf, CopiedFrom;
  }
}
