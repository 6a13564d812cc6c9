/** How the hash slots are split across shards, and how slot ranges are written and read. */
module Slots {
  import opened Wrappers
  import opened Cluster
  import opened Text

  /** Where shard i's share begins. */
  function Start(i: nat, n: nat): nat
    requires n > 0
  {
    i * TOTAL_SLOTS / n
  }

  /** A split of the slot space into n contiguous shares. */
  ghost predicate EvenSplit(ranges: seq<SlotRange>, n: nat) {
    && |ranges| == n
    && (n > 0 ==> ranges[0].start == 0 && ranges[n - 1].end == TOTAL_SLOTS - 1)
    && (forall i | 0 < i < n :: ranges[i].start == ranges[i - 1].end + 1)
    && (forall i | 0 <= i < n :: TOTAL_SLOTS / n <= ranges[i].end - ranges[i].start + 1 <= TOTAL_SLOTS / n + 1)
  }

  lemma ShareSize(i: nat, n: nat)
    requires n > 0
    ensures TOTAL_SLOTS / n <= Start(i + 1, n) - Start(i, n) <= TOTAL_SLOTS / n + 1
  {
    var q, r := TOTAL_SLOTS / n, TOTAL_SLOTS % n;
    var a := i * TOTAL_SLOTS;
    assert (i + 1) * TOTAL_SLOTS == a + TOTAL_SLOTS;
    QuotientOfSum(a, TOTAL_SLOTS, n);
  }

  lemma StartOfAll(n: nat)
    requires n > 0
    ensures Start(n, n) == TOTAL_SLOTS
  {
    QuotientIs(n * TOTAL_SLOTS, n, TOTAL_SLOTS, 0);
  }

  lemma QuotientOfSum(a: nat, b: nat, n: nat)
    requires n > 0
    ensures a / n + b / n <= (a + b) / n <= a / n + b / n + 1
  {
    var q := a / n + b / n;
    var r := a % n + b % n;
    assert a + b == n * q + r && 0 <= r < 2 * n by {
      assert a == n * (a / n) + a % n && b == n * (b / n) + b % n;
      assert n * (a / n) + n * (b / n) == n * q;
    }
    QuotientIs(a + b, n, if r < n then q else q + 1, if r < n then r else r - n);
  }

  lemma QuotientIs(a: nat, n: nat, q: nat, r: nat)
    requires n > 0 && a == n * q + r && r < n
    ensures a / n == q
  {
    assert n * (a / n - q) == r - a % n by {
      assert a == n * (a / n) + a % n;
    }
    if a / n != q {
      LargeMultiple(n, a / n - q);
    }
  }

  lemma LargeMultiple(n: int, k: int)
    requires n > 0 && k != 0
    ensures n * k >= n || n * k <= 0 - n
  {
    if k > 0 {
      AtLeast(n, k);
    } else {
      AtLeast(n, 0 - k);
      assert n * (0 - k) == 0 - n * k;
    }
  }

  lemma {:induction false} AtLeast(n: int, k: int)
    requires n > 0 && k >= 1
    ensures n * k >= n
    decreases k
  {
    if k > 1 {
      AtLeast(n, k - 1);
      assert n * k == n * (k - 1) + n;
    }
  }

  /** Split the whole slot space evenly and contiguously across n shards; nothing for n <= 0. */
  method Distribute(n: int) returns (ranges: seq<SlotRange>)
    ensures n <= 0 ==> ranges == []
    ensures n > 0 ==> EvenSplit(ranges, n)
    ensures n > 0 ==> forall i | 0 <= i < n :: ranges[i] == Share(i, n)
  {
    ranges := [];
    if n <= 0 {
      return;
    }
    for i := 0 to n
      invariant |ranges| == i
      invariant forall j | 0 <= j < i :: ranges[j] == Share(j, n)
    {
      ranges := ranges + [SlotRange(i * TOTAL_SLOTS / n, (i + 1) * TOTAL_SLOTS / n - 1)];
    }
    SharesSplit(ranges, n);
  }

  /** The range Distribute gives shard i. */
  function Share(i: nat, n: nat): SlotRange
    requires n > 0
  {
    SlotRange(Start(i, n), Start(i + 1, n) - 1)
  }

  lemma SharesSplit(ranges: seq<SlotRange>, n: nat)
    requires n > 0 && |ranges| == n && forall i | 0 <= i < n :: ranges[i] == Share(i, n)
    ensures EvenSplit(ranges, n)
  {
    assert n * TOTAL_SLOTS / n == TOTAL_SLOTS by { QuotientIs(n * TOTAL_SLOTS, n, TOTAL_SLOTS, 0); }
    forall i | 0 <= i < n
      ensures TOTAL_SLOTS / n <= ranges[i].end - ranges[i].start + 1 <= TOTAL_SLOTS / n + 1
    {
      ShareSize(i, n);
    }
  }

  /** The shares up to any point are the slots up to that point: together they are all slots, each once. */
  lemma {:induction false} SplitCovers(ranges: seq<SlotRange>, n: nat, k: nat)
    requires EvenSplit(ranges, n) && k <= n
    ensures Expand(ranges[..k]) == Span(0, if k == 0 then -1 else ranges[k - 1].end)
    ensures CountRanges(ranges[..k]) == if k == 0 then 0 else ranges[k - 1].end + 1
  {
    if k > 0 {
      SplitCovers(ranges, n, k - 1);
      assert ranges[..k] == ranges[..k - 1] + [ranges[k - 1]];
      ExpandAppend(ranges[..k - 1], ranges[k - 1]);
      CountRangesAppend(ranges[..k - 1], ranges[k - 1]);
      assert ranges[k - 1].start == if k == 1 then 0 else ranges[k - 2].end + 1;
      assert ranges[k - 1].end >= ranges[k - 1].start - 1 >= -1 by { EndsGrow(ranges, n, k - 1); }
      SpanJoin(0, ranges[k - 1].start, ranges[k - 1].end);
    }
  }

  lemma {:induction false} EndsGrow(ranges: seq<SlotRange>, n: nat, i: nat)
    requires EvenSplit(ranges, n) && i < n
    ensures ranges[i].end >= ranges[i].start - 1 >= -1
  {
    assert TOTAL_SLOTS / n >= 0;
    if i > 0 {
      EndsGrow(ranges, n, i - 1);
    }
  }

  lemma {:induction false} ExpandAppend(rs: seq<SlotRange>, r: SlotRange)
    ensures Expand(rs + [r]) == Expand(rs) + Span(r.start, r.end)
  {
    if rs != [] {
      ExpandAppend(rs[1..], r);
      assert (rs + [r])[1..] == rs[1..] + [r];
    }
  }

  lemma {:induction false} SpanJoin(lo: int, mid: int, hi: int)
    requires lo <= mid <= hi + 1
    ensures Span(lo, mid - 1) + Span(mid, hi) == Span(lo, hi)
    decreases mid - lo
  {
    if lo < mid {
      SpanJoin(lo + 1, mid, hi);
    }
  }

  /** How many slots each of n shards should own. */
  method TargetCounts(n: int) returns (counts: seq<int>)
    ensures n <= 0 ==> counts == []
    ensures n > 0 ==> |counts| == n && Sum(counts) == TOTAL_SLOTS
    ensures n > 0 ==> forall i | 0 <= i < n :: TOTAL_SLOTS / n <= counts[i] <= TOTAL_SLOTS / n + 1
  {
    counts := [];
    if n <= 0 {
      return;
    }
    var ranges := Distribute(n);
    for i := 0 to n
      invariant |counts| == i
      invariant forall j | 0 <= j < i :: counts[j] == ranges[j].end - ranges[j].start + 1
      invariant Sum(counts) == CountRanges(ranges[..i])
    {
      assert ranges[..i + 1] == ranges[..i] + [ranges[i]];
      CountRangesAppend(ranges[..i], ranges[i]);
      SumAppend(counts, ranges[i].end - ranges[i].start + 1);
      counts := counts + [ranges[i].end - ranges[i].start + 1];
    }
    assert ranges[..n] == ranges;
    SplitCovers(ranges, n, n);
  }

  function Sum(xs: seq<int>): int {
    if xs == [] then 0 else xs[0] + Sum(xs[1..])
  }

  lemma {:induction false} SumAppend(xs: seq<int>, x: int)
    ensures Sum(xs + [x]) == Sum(xs) + x
  {
    if xs != [] {
      SumAppend(xs[1..], x);
      assert (xs + [x])[1..] == xs[1..] + [x];
    }
  }

  // ---- ranges as text ----

  /** A range as Valkey writes it: "start-end", or the number for a single slot. */
  function FormatRange(r: SlotRange): string {
    if r.start == r.end then Itoa(r.start) else Itoa(r.start) + "-" + Itoa(r.end)
  }

  /** `parseSlotToken`. */
  function ParseSlotToken(tok: string): Option<SlotRange> {
    match Cut(tok, '-')
    case Some((lo, hi)) =>
      var s, e := Atoi(lo), Atoi(hi);
      if s.Some? && e.Some? then Some(SlotRange(s.value, e.value)) else None
    case None =>
      var s := Atoi(tok);
      if s.Some? then Some(SlotRange(s.value, s.value)) else None
  }

  lemma DigitsHaveNoDash(n: nat)
    ensures '-' !in Digits(n)
  {
    assert forall i | 0 <= i < |Digits(n)| :: IsDigit(Digits(n)[i]);
  }

  /** Reading a written range gives it back exactly when it starts at a non-negative number. */
  lemma RangeRoundTrip(r: SlotRange)
    requires IsInt(r.start) && IsInt(r.end)
    ensures ParseSlotToken(FormatRange(r)) == Some(r) <==> r.start >= 0
  {
    var s := FormatRange(r);
    if r.start >= 0 {
      DigitsHaveNoDash(r.start);
      AtoiOfItoa(r.start);
      AtoiOfItoa(r.end);
      if r.start == r.end {
        CutNone(s, '-');
      } else {
        assert s == Itoa(r.start) + ['-'] + Itoa(r.end);
        CutAt(Itoa(r.start), '-', Itoa(r.end));
      }
    } else {
      assert s[0] == '-';
      assert s == [] + ['-'] + s[1..];
      CutAt([], '-', s[1..]);
    }
  }

  function FormatAll(ranges: seq<SlotRange>): seq<string> {
    seq(|ranges|, i requires 0 <= i < |ranges| => FormatRange(ranges[i]))
  }

  /** The ranges as one text. */
  function JoinRanges(ranges: seq<SlotRange>): string {
    Join(FormatAll(ranges), ',')
  }

  lemma RangeHasNoComma(r: SlotRange)
    ensures ',' !in FormatRange(r)
  {
    ItoaChars(r.start);
    ItoaChars(r.end);
    hide Itoa;
  }

  /** Splitting the text at its commas and reading each part gives the ranges back, in order; one of them comes back
      changed exactly when it starts at a negative number. */
  lemma RangesRoundTrip(ranges: seq<SlotRange>)
    requires ranges != [] && forall i | 0 <= i < |ranges| :: IsInt(ranges[i].start) && IsInt(ranges[i].end)
    ensures var toks := Split(JoinRanges(ranges), ',');
            && |toks| == |ranges|
            && forall i | 0 <= i < |toks| :: ParseSlotToken(toks[i]) == Some(ranges[i]) <==> ranges[i].start >= 0
  {
    hide Split, Join, FormatRange, ParseSlotToken;
    forall i | 0 <= i < |ranges|
      ensures ',' !in FormatRange(ranges[i])
      ensures ParseSlotToken(FormatRange(ranges[i])) == Some(ranges[i]) <==> ranges[i].start >= 0
    {
      RangeHasNoComma(ranges[i]);
      RangeRoundTrip(ranges[i]);
    }
    SplitJoin(FormatAll(ranges), ',');
  }

  /** A comma-separated list of ranges; empty for none. Its parts read back as the ranges. */
  method FormatRanges(ranges: seq<SlotRange>) returns (s: string)
    ensures s == JoinRanges(ranges) && (ranges == [] ==> s == "")
    ensures (ranges != []
             && forall i | 0 <= i < |ranges| :: 0 <= ranges[i].start <= MAX_INT && IsInt(ranges[i].end)) ==>
              var toks := Split(s, ',');
              |toks| == |ranges| && forall i | 0 <= i < |toks| :: ParseSlotToken(toks[i]) == Some(ranges[i])
  {
    if |ranges| == 0 {
      return "";
    }
    hide Split, Join, FormatRange, ParseSlotToken;
    var parts: seq<string> := [];
    for i := 0 to |ranges|
      invariant parts == FormatAll(ranges[..i])
    {
      parts := parts + [FormatRange(ranges[i])];
    }
    assert ranges[..|ranges|] == ranges;
    s := Join(parts, ',');
    if forall i | 0 <= i < |ranges| :: 0 <= ranges[i].start <= MAX_INT && IsInt(ranges[i].end) {
      RangesRoundTrip(ranges);
    }
  }
}
