/** The cluster as the operator observes it: slot ranges, nodes and the whole state. */
module Cluster {
  import opened Wrappers

  const TOTAL_SLOTS: int := 16384

  /** An inclusive range of hash slots. */
  datatype SlotRange = SlotRange(start: int, end: int)

  datatype NodeInfo = NodeInfo(
    id: string,
    host: string,
    ip: string,
    port: int,
    flags: seq<string>,
    masterID: string,
    slots: seq<SlotRange>,
    connected: bool)
  {
    predicate IsPrimary() {
      "master" in flags || masterID == ""
    }

    predicate HasFlag(flag: string) {
      flag in flags
    }

    function SlotCount(): int {
      CountRanges(slots)
    }

    /** A primary that owns slots: what the operator calls a shard. */
    predicate OwnsSlots() {
      IsPrimary() && SlotCount() > 0
    }
  }

  datatype ClusterState = ClusterState(formed: bool, slotsCovered: bool, openSlots: bool, nodes: seq<NodeInfo>)

  function CountRanges(rs: seq<SlotRange>): int {
    if rs == [] then 0 else (rs[0].end - rs[0].start + 1) + CountRanges(rs[1..])
  }

  lemma {:induction false} CountRangesAppend(rs: seq<SlotRange>, r: SlotRange)
    ensures CountRanges(rs + [r]) == CountRanges(rs) + (r.end - r.start + 1)
  {
    if rs != [] {
      CountRangesAppend(rs[1..], r);
      assert (rs + [r])[1..] == rs[1..] + [r];
    }
  }

  /** NodeInfo.SlotCount's accumulating loop. */
  method SumRanges(rs: seq<SlotRange>) returns (total: int)
    ensures total == CountRanges(rs)
  {
    total := 0;
    for i := 0 to |rs|
      invariant total == CountRanges(rs[..i])
    {
      assert rs[..i + 1] == rs[..i] + [rs[i]];
      CountRangesAppend(rs[..i], rs[i]);
      total := total + (rs[i].end - rs[i].start + 1);
    }
    assert rs[..|rs|] == rs;
  }

  // ---- the slots a list of ranges stands for ----

  /** lo, lo+1, ..., hi. */
  function Span(lo: int, hi: int): seq<int>
    decreases hi - lo + 1
  {
    if hi < lo then [] else [lo] + Span(lo + 1, hi)
  }

  /** The slots of the ranges, in listed order. */
  function Expand(rs: seq<SlotRange>): seq<int> {
    if rs == [] then [] else Span(rs[0].start, rs[0].end) + Expand(rs[1..])
  }

  /** The ranges are non-empty and no two of them share a slot: what CLUSTER NODES lists for one node. */
  ghost predicate Disjoint(rs: seq<SlotRange>) {
    && (forall i | 0 <= i < |rs| :: rs[i].start <= rs[i].end)
    && (forall i, j | 0 <= i < j < |rs| :: rs[i].end < rs[j].start || rs[j].end < rs[i].start)
  }

  /** The ranges are non-empty and ascend: the order in which CLUSTER NODES lists them. */
  ghost predicate Ascending(rs: seq<SlotRange>) {
    && (forall i | 0 <= i < |rs| :: rs[i].start <= rs[i].end)
    && (forall i, j | 0 <= i < j < |rs| :: rs[i].end < rs[j].start)
  }

  /** Every element is smaller than those after it. */
  ghost predicate Increasing(xs: seq<int>) {
    forall i, j | 0 <= i < j < |xs| :: xs[i] < xs[j]
  }

  lemma {:induction false} SpanIs(lo: int, hi: int)
    ensures |Span(lo, hi)| == if hi < lo then 0 else hi - lo + 1
    ensures forall i | 0 <= i < |Span(lo, hi)| :: Span(lo, hi)[i] == lo + i
    decreases hi - lo + 1
  {
    if lo <= hi {
      SpanIs(lo + 1, hi);
    }
  }

  /** s lies in one of the ranges. */
  predicate Covers(rs: seq<SlotRange>, s: int) {
    exists i | 0 <= i < |rs| :: rs[i].start <= s <= rs[i].end
  }

  lemma {:induction false} ExpandIs(rs: seq<SlotRange>)
    ensures forall s :: s in Expand(rs) <==> Covers(rs, s)
  {
    if rs != [] {
      ExpandIs(rs[1..]);
      SpanIs(rs[0].start, rs[0].end);
      forall s
        ensures s in Expand(rs) <==> Covers(rs, s)
      {
        var span := Span(rs[0].start, rs[0].end);
        assert s in span <==> rs[0].start <= s <= rs[0].end by {
          if rs[0].start <= s <= rs[0].end { assert span[s - rs[0].start] == s; }
        }
        if Covers(rs[1..], s) {
          var i :| 0 <= i < |rs[1..]| && rs[1..][i].start <= s <= rs[1..][i].end;
          assert rs[i + 1].start <= s <= rs[i + 1].end;
        }
        if Covers(rs, s) {
          var i :| 0 <= i < |rs| && rs[i].start <= s <= rs[i].end;
          assert i > 0 ==> rs[1..][i - 1] == rs[i];
        }
      }
    }
  }

  /** Disjoint ranges list each of their slots once, SlotCount many of them. */
  lemma {:induction false} DisjointExpand(rs: seq<SlotRange>)
    requires Disjoint(rs)
    ensures Distinct(Expand(rs)) && |Expand(rs)| == CountRanges(rs)
  {
    if rs != [] {
      var rest := rs[1..];
      assert forall i | 0 <= i < |rest| :: rest[i] == rs[i + 1];
      DisjointExpand(rest);
      SpanIs(rs[0].start, rs[0].end);
      ExpandIs(rest);
      var span := Span(rs[0].start, rs[0].end);
      forall i, j | 0 <= i < |span| && 0 <= j < |Expand(rest)|
        ensures span[i] != Expand(rest)[j]
      {
        assert Expand(rest)[j] in Expand(rest);
        assert Covers(rest, Expand(rest)[j]);
      }
    }
  }

  lemma {:induction false} ExpandAscends(rs: seq<SlotRange>)
    requires Ascending(rs)
    ensures Disjoint(rs) && Increasing(Expand(rs))
  {
    if rs != [] {
      var rest := rs[1..];
      assert forall i | 0 <= i < |rest| :: rest[i] == rs[i + 1];
      ExpandAscends(rest);
      SpanIs(rs[0].start, rs[0].end);
      ExpandIs(rest);
      var span := Span(rs[0].start, rs[0].end);
      forall i, j | 0 <= i < |span| && 0 <= j < |Expand(rest)|
        ensures span[i] < Expand(rest)[j]
      {
        assert Expand(rest)[j] in Expand(rest);
        assert Covers(rest, Expand(rest)[j]);
      }
    }
  }
}
