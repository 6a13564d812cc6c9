/** The published status record: its condition list, updated in place, and what it says over a history of passes. */
module Conditions {
  import opened Wrappers
  import opened Cluster
  import opened Names
  import opened Status
  import opened Reports

  const AVAILABLE := "Available"
  const PROGRESSING := "Progressing"
  const DEGRADED := "Degraded"

  datatype Condition = Condition(
    kind: string, isTrue: bool, reason: string, message: string, generation: int, since: int)

  // ---- the list ----

  /** The condition of this kind that a reader finds. */
  function Find(conds: seq<Condition>, kind: string): Option<Condition> {
    if conds == [] then None
    else if conds[0].kind == kind then Some(conds[0])
    else Find(conds[1..], kind)
  }

  ghost predicate OnePerKind(conds: seq<Condition>) {
    forall i, j | 0 <= i < j < |conds| :: conds[i].kind != conds[j].kind
  }

  /** `c` as it is stored over `was`: the time of the last transition stays if the status does. */
  function Dated(was: Option<Condition>, c: Condition): Condition {
    if was.Some? && was.value.isTrue == c.isTrue then c.(since := was.value.since) else c
  }

  /** The list after setting `c`: in place of the first of its kind, else at the end. */
  function Put(conds: seq<Condition>, c: Condition): seq<Condition> {
    if conds == [] then [c]
    else if conds[0].kind == c.kind then [Dated(Some(conds[0]), c)] + conds[1..]
    else [conds[0]] + Put(conds[1..], c)
  }

  /** Setting a condition changes that one only, and only a change of status moves its time. */
  lemma {:induction false} PutFinds(conds: seq<Condition>, c: Condition, kind: string)
    ensures Find(Put(conds, c), kind) == if kind == c.kind then Some(Dated(Find(conds, kind), c)) else Find(conds, kind)
  {
    if conds != [] && conds[0].kind != c.kind {
      PutFinds(conds[1..], c, kind);
    }
  }

  /** A reader finds the first condition of the kind. */
  lemma {:induction false} FindIs(conds: seq<Condition>, kind: string)
    ensures match Find(conds, kind)
            case None => forall i | 0 <= i < |conds| :: conds[i].kind != kind
            case Some(c) =>
              exists i :: 0 <= i < |conds| && conds[i] == c && c.kind == kind
                          && forall j | 0 <= j < i :: conds[j].kind != kind
  {
    if conds != [] && conds[0].kind != kind {
      var rest := conds[1..];
      FindIs(rest, kind);
      assert forall j | 0 < j < |conds| :: conds[j] == rest[j - 1];
      if Find(rest, kind).Some? {
        var i :| 0 <= i < |rest| && rest[i] == Find(rest, kind).value && rest[i].kind == kind
                 && forall j | 0 <= j < i :: rest[j].kind != kind;
        assert conds[i + 1] == rest[i];
      }
    }
  }

  /** The condition set is found as given, with the time of the last transition: the one stored if a condition of the
      kind was there with the same status, else the new one. */
  lemma TransitionTime(conds: seq<Condition>, c: Condition)
    ensures var was, after := Find(conds, c.kind), Find(Put(conds, c), c.kind);
            && after.Some? && after.value == c.(since := after.value.since)
            && (was.Some? && was.value.isTrue == c.isTrue ==> after.value.since == was.value.since)
            && (was.None? || was.value.isTrue != c.isTrue ==> after.value.since == c.since)
  {
    hide Find, Put;
    PutFinds(conds, c, c.kind);
  }

  lemma {:induction false} PutKinds(conds: seq<Condition>, c: Condition, kind: string)
    ensures (exists x :: x in Put(conds, c) && x.kind == kind) <==>
            kind == c.kind || exists x :: x in conds && x.kind == kind
  {
    if conds == [] {
      assert c in Put(conds, c);
    } else {
      var first, rest := conds[0], conds[1..];
      assert forall x :: x in conds <==> x == first || x in rest;
      if first.kind == c.kind {
        var d := Dated(Some(first), c);
        assert forall x :: x in Put(conds, c) <==> x == d || x in rest;
        assert d in Put(conds, c) && first in conds;
      } else {
        PutKinds(rest, c, kind);
        assert forall x :: x in Put(conds, c) <==> x == first || x in Put(rest, c);
      }
    }
  }

  /** No kind is ever listed twice. */
  lemma {:induction false} PutKeepsOne(conds: seq<Condition>, c: Condition)
    requires OnePerKind(conds)
    ensures OnePerKind(Put(conds, c))
  {
    if conds != [] && conds[0].kind != c.kind {
      var first, rest := conds[0], conds[1..];
      PutKeepsOne(rest, c);
      PutKinds(rest, c, first.kind);
      var more := Put(rest, c);
      assert forall x | x in rest :: x.kind != first.kind;
      assert forall i | 0 <= i < |more| :: more[i] in more && more[i].kind != first.kind;
    }
  }

  lemma Replaces<T>(xs: seq<T>, i: nat, x: T)
    requires i < |xs|
    ensures xs[..i] + ([x] + xs[i + 1..]) == xs[i := x]
  {
  }

  lemma Regroups<T>(xs: seq<T>, i: nat, rest: seq<T>)
    requires i < |xs|
    ensures xs[..i] + ([xs[i]] + rest) == xs[..i + 1] + rest
  {
  }

  lemma PutFrom(conds: seq<Condition>, c: Condition, i: nat)
    requires i < |conds|
    ensures Put(conds[i..], c) ==
            if conds[i].kind == c.kind then [Dated(Some(conds[i]), c)] + conds[i + 1..]
            else [conds[i]] + Put(conds[i + 1..], c)
  {
    assert conds[i..][0] == conds[i] && conds[i..][1..] == conds[i + 1..];
  }

  lemma PutAt(conds: seq<Condition>, c: Condition, i: nat)
    requires i < |conds|
    ensures conds[i].kind == c.kind ==>
              conds[..i] + Put(conds[i..], c) == conds[i := Dated(Some(conds[i]), c)]
    ensures conds[i].kind != c.kind ==> conds[..i] + Put(conds[i..], c) == conds[..i + 1] + Put(conds[i + 1..], c)
  {
    hide Put, Dated;
    PutFrom(conds, c, i);
    if conds[i].kind == c.kind {
      Replaces(conds, i, Dated(Some(conds[i]), c));
    } else {
      Regroups(conds, i, Put(conds[i + 1..], c));
    }
  }

  // ---- what a pass publishes ----

  /** The conditions set in each case, in order. */
  function Conds(c: Case, g: int, now: int): seq<Condition> {
    match c
    case AllReady => [
      Condition(AVAILABLE, true, "Ready", "all shards serving, full keyspace covered", g, now),
      Condition(PROGRESSING, false, "Ready", "converged", g, now),
      Condition(DEGRADED, false, "Ready", "healthy", g, now)]
    case Removing => [
      Condition(PROGRESSING, true, "Resharding", "removing shards", g, now),
      Condition(AVAILABLE, true, "Serving", "primaries serving during scale-in", g, now)]
    case Migrating => [
      Condition(PROGRESSING, true, "Resharding", "slot migration in progress", g, now),
      Condition(AVAILABLE, true, "Serving", "primaries serving during migration", g, now)]
    case NoPrimaries => [
      Condition(AVAILABLE, false, "NoPrimaries", "no shard has a reachable primary", g, now),
      Condition(DEGRADED, true, "NoPrimaries", "no shard has a reachable primary", g, now)]
    case Partial => [
      Condition(AVAILABLE, false, "PartialCoverage", "not all shards serving or keyspace not fully covered", g, now),
      Condition(DEGRADED, true, "PartialCoverage", "degraded", g, now)]
  }

  function PutAll(conds: seq<Condition>, cs: seq<Condition>): seq<Condition> {
    if cs == [] then conds else Put(PutAll(conds, cs[..|cs| - 1]), cs[|cs| - 1])
  }

  class Record {
    var phase: Phase
    var readyShards: nat
    var shards: seq<ShardStatus>
    var observed: int
    var conditions: seq<Condition>

    constructor ()
      ensures conditions == []
    {
      phase, readyShards, shards, observed, conditions := Degraded, 0, [], 0, [];
    }

    /** Set a condition in place. */
    method SetCond(c: Condition)
      modifies this`conditions
      ensures conditions == Put(old(conditions), c)
    {
      for i := 0 to |conditions|
        invariant conditions == old(conditions) && Put(conditions, c) == conditions[..i] + Put(conditions[i..], c)
      {
        PutAt(conditions, c, i);
        if conditions[i].kind == c.kind {
          var stored := c;
          if conditions[i].isTrue == c.isTrue {
            stored := c.(since := conditions[i].since);
          }
          conditions := conditions[i := stored];
          return;
        }
      }
      assert conditions[|conditions|..] == [] && conditions[..|conditions|] == conditions;
      conditions := conditions + [c];
    }

    /** Publish what a pass observed. */
    method Publish(cr: ValkeyCluster, st: ClusterState, generation: int, now: int)
      modifies this
      ensures Tells(ClusterStatus(phase, readyShards, shards), cr, st) && observed == generation
      ensures conditions == PutAll(old(conditions), Conds(CaseOf(cr, st), generation, now))
    {
      hide Put, ReadyShards, HostIndex, CountOwners, ShardEntry;
      var status := UpdateStatus(cr, st);
      phase, readyShards, shards, observed := status.phase, status.readyShards, status.shards, generation;
      var cs := Conds(CaseOf(cr, st), generation, now);
      for i := 0 to |cs|
        invariant conditions == PutAll(old(conditions), cs[..i])
        invariant phase == status.phase && readyShards == status.readyShards && shards == status.shards
        invariant observed == generation
      {
        assert cs[..i + 1][..i] == cs[..i];
        SetCond(cs[i]);
      }
      assert cs[..|cs|] == cs;
    }
  }

  // ---- over a history ----

  /** A case with its generation and time. */
  datatype Report = Report(what: Case, generation: int, time: int)

  /** The list after a history of reports. */
  function Published(rs: seq<Report>): seq<Condition> {
    if rs == [] then []
    else
      var last := rs[|rs| - 1];
      PutAll(Published(rs[..|rs| - 1]), Conds(last.what, last.generation, last.time))
  }

  /** What a reader finds of a kind: status, reason and message. */
  function Shows(conds: seq<Condition>, kind: string): Option<(bool, string, string)> {
    match Find(conds, kind) case Some(c) => Some((c.isTrue, c.reason, c.message)) case None => None
  }

  function Says(conds: seq<Condition>, kind: string): Option<bool> {
    match Shows(conds, kind) case Some((status, _, _)) => Some(status) case None => None
  }

  predicate Bad(c: Case) {
    c.NoPrimaries? || c.Partial?
  }

  predicate Moving(c: Case) {
    c.Removing? || c.Migrating?
  }

  lemma PutShows(conds: seq<Condition>, c: Condition)
    ensures forall kind :: Shows(Put(conds, c), kind) ==
              if kind == c.kind then Some((c.isTrue, c.reason, c.message)) else Shows(conds, kind)
  {
    forall kind
      ensures Shows(Put(conds, c), kind) ==
              if kind == c.kind then Some((c.isTrue, c.reason, c.message)) else Shows(conds, kind)
    {
      PutFinds(conds, c, kind);
    }
  }

  lemma KindsDiffer()
    ensures AVAILABLE != PROGRESSING && AVAILABLE != DEGRADED && PROGRESSING != DEGRADED
  {
    assert AVAILABLE[0] == 'A' && PROGRESSING[0] == 'P' && DEGRADED[0] == 'D';
  }

  lemma PutAllNext(conds: seq<Condition>, cs: seq<Condition>, c: Condition)
    ensures PutAll(conds, []) == conds && PutAll(conds, cs + [c]) == Put(PutAll(conds, cs), c)
  {
    hide Put;
    assert (cs + [c])[..|cs|] == cs;
  }

  function Shown(c: Condition): Option<(bool, string, string)> {
    Some((c.isTrue, c.reason, c.message))
  }

  /** Two conditions set one after the other. */
  lemma PutTwo(conds: seq<Condition>, a: Condition, b: Condition)
    ensures PutAll(conds, [a, b]) == Put(Put(conds, a), b)
    ensures OnePerKind(conds) ==> OnePerKind(PutAll(conds, [a, b]))
    ensures forall kind :: Shows(PutAll(conds, [a, b]), kind) ==
              if kind == b.kind then Shown(b) else if kind == a.kind then Shown(a) else Shows(conds, kind)
  {
    hide Put, OnePerKind, Shows, PutAll;
    PutAllNext(conds, [], a);
    PutAllNext(conds, [a], b);
    assert [] + [a] == [a] && [a] + [b] == [a, b];
    PutShows(conds, a);
    PutShows(Put(conds, a), b);
    if OnePerKind(conds) {
      PutKeepsOne(conds, a);
      PutKeepsOne(Put(conds, a), b);
    }
  }

  lemma PutThree(conds: seq<Condition>, a: Condition, b: Condition, c: Condition)
    ensures OnePerKind(conds) ==> OnePerKind(PutAll(conds, [a, b, c]))
    ensures forall kind :: Shows(PutAll(conds, [a, b, c]), kind) ==
              if kind == c.kind then Shown(c) else Shows(PutAll(conds, [a, b]), kind)
  {
    hide Put, OnePerKind, Shows, PutAll;
    PutTwo(conds, a, b);
    PutAllNext(conds, [a, b], c);
    assert [a, b] + [c] == [a, b, c];
    PutShows(PutAll(conds, [a, b]), c);
    if OnePerKind(conds) {
      PutKeepsOne(PutAll(conds, [a, b]), c);
    }
  }

  /** What a reader finds after each report. */
  lemma ReportShows(conds: seq<Condition>, c: Case, g: int, now: int)
    ensures var after := PutAll(conds, Conds(c, g, now));
            && Shows(after, AVAILABLE) ==
               (match c
                case AllReady => Some((true, "Ready", "all shards serving, full keyspace covered"))
                case Removing => Some((true, "Serving", "primaries serving during scale-in"))
                case Migrating => Some((true, "Serving", "primaries serving during migration"))
                case NoPrimaries => Some((false, "NoPrimaries", "no shard has a reachable primary"))
                case Partial =>
                  Some((false, "PartialCoverage", "not all shards serving or keyspace not fully covered")))
            && Shows(after, PROGRESSING) ==
               (match c
                case AllReady => Some((false, "Ready", "converged"))
                case Removing => Some((true, "Resharding", "removing shards"))
                case Migrating => Some((true, "Resharding", "slot migration in progress"))
                case _ => Shows(conds, PROGRESSING))
            && Shows(after, DEGRADED) ==
               (match c
                case AllReady => Some((false, "Ready", "healthy"))
                case NoPrimaries => Some((true, "NoPrimaries", "no shard has a reachable primary"))
                case Partial => Some((true, "PartialCoverage", "degraded"))
                case _ => Shows(conds, DEGRADED))
            && (OnePerKind(conds) ==> OnePerKind(after))
  {
    hide Put, OnePerKind, Shows, PutAll;
    KindsDiffer();
    var cs := Conds(c, g, now);
    PutTwo(conds, cs[0], cs[1]);
    if c.AllReady? {
      PutThree(conds, cs[0], cs[1], cs[2]);
      assert cs == [cs[0], cs[1], cs[2]];
    } else {
      assert cs == [cs[0], cs[1]];
    }
  }

  lemma ReportSays(conds: seq<Condition>, c: Case, g: int, now: int)
    ensures var after := PutAll(conds, Conds(c, g, now));
            && Says(after, AVAILABLE) == Some(!Bad(c))
            && Says(after, PROGRESSING) ==
               (if c.AllReady? then Some(false) else if Moving(c) then Some(true) else Says(conds, PROGRESSING))
            && Says(after, DEGRADED) ==
               (if c.AllReady? then Some(false) else if Bad(c) then Some(true) else Says(conds, DEGRADED))
            && (OnePerKind(conds) ==> OnePerKind(after))
  {
    hide Put, OnePerKind, Shows, PutAll, Conds;
    ReportShows(conds, c, g, now);
  }

  /** What a pass publishes, from the observed state alone. Available is true while all is well or slots move, and its
      reason tells the four cases apart; Progressing and Degraded are set as the case asks, and left alone otherwise. */
  lemma PublishedMeans(conds: seq<Condition>, cr: ValkeyCluster, st: ClusterState, g: int, now: int)
    requires DistinctHosts(st.nodes)
    ensures var after := PutAll(conds, Conds(CaseOf(cr, st), g, now));
            var well, served := AllWell(cr, st), SomeServed(cr, st.nodes);
            var more := |Owners(st.nodes)| > cr.shards;
            var available, progressing := Shows(after, AVAILABLE), Shows(after, PROGRESSING);
            && available.Some? && available.value.0 == (well || (served && (more || st.openSlots)))
            && available.value.1 ==
               (if well then "Ready" else if !served then "NoPrimaries"
                else if more || st.openSlots then "Serving" else "PartialCoverage")
            && (well ==> Says(after, PROGRESSING) == Some(false) && Says(after, DEGRADED) == Some(false))
            && (!well && served && (more || st.openSlots) ==>
                  && progressing.Some? && progressing.value.0
                  && progressing.value.2 == (if more then "removing shards" else "slot migration in progress")
                  && Says(after, DEGRADED) == Says(conds, DEGRADED))
            && (!well && !(served && (more || st.openSlots)) ==>
                  Says(after, DEGRADED) == Some(true) && progressing == Shows(conds, PROGRESSING))
  {
    hide Put, OnePerKind, Shows, PutAll, Conds, CaseOf, AllWell, SomeServed, Owners, DistinctHosts;
    CaseMeans(cr, st);
    ReportShows(conds, CaseOf(cr, st), g, now);
  }

  /** A bad report, and nothing but moving since. */
  ghost predicate Lingers(rs: seq<Report>) {
    exists i :: 0 <= i < |rs| && Bad(rs[i].what) && forall j | i < j < |rs| :: Moving(rs[j].what)
  }

  /** What a reader finds after any history of reports: Available goes by the last one; Degraded goes by the last one
      that was not about moving slots, so that it stays true through a resharding that follows a bad report. */
  lemma {:induction false} HistorySays(rs: seq<Report>)
    ensures OnePerKind(Published(rs))
    ensures rs != [] ==> Says(Published(rs), AVAILABLE) == Some(!Bad(rs[|rs| - 1].what))
    ensures Says(Published(rs), DEGRADED) == Some(true) <==> Lingers(rs)
  {
    hide PutAll, Conds, Says, OnePerKind;
    if rs == [] {
      NothingSaid();
    } else {
      var rest, last := rs[..|rs| - 1], rs[|rs| - 1];
      HistorySays(rest);
      ReportSays(Published(rest), last.what, last.generation, last.time);
      LingersNext(rs);
    }
  }

  lemma NothingSaid()
    ensures OnePerKind([]) && Says([], DEGRADED) == None
  {
  }

  lemma LingersNext(rs: seq<Report>)
    requires rs != []
    ensures var last := rs[|rs| - 1].what;
            Lingers(rs) <==> Bad(last) || (Moving(last) && Lingers(rs[..|rs| - 1]))
  {
    var rest, n := rs[..|rs| - 1], |rs| - 1;
    assert forall i | 0 <= i < |rest| :: rest[i] == rs[i];
    assert Bad(rs[n].what) ==> Lingers(rs);
    if i :| 0 <= i < |rest| && Bad(rest[i].what) && forall j | i < j < |rest| :: Moving(rest[j].what) {
      assert Bad(rs[i].what) && forall j | i < j < |rs| && j != n :: Moving(rs[j].what);
    }
  }
}
