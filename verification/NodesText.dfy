/** Reading the text of CLUSTER NODES: one line per node, its slots and open-slot markers at the end. */
module NodesText {
  import opened Wrappers
  import opened Cluster
  import opened Text
  import opened Slots

  // ---- strings.Fields ----

  /** unicode.IsSpace. */
  predicate IsSpace(c: char) {
    || '\t' <= c <= '\r' || c == ' ' || c == '\U{85}' || c == '\U{A0}'
    || c == '\U{1680}' || '\U{2000}' <= c <= '\U{200A}'
    || c == '\U{2028}' || c == '\U{2029}' || c == '\U{202F}' || c == '\U{205F}' || c == '\U{3000}'
  }

  /** The 25 characters with Unicode's White_Space property. */
  lemma SpacesAre(c: char)
    ensures IsSpace(c) <==>
            c as int in {
              9, 10, 11, 12, 13, 32, 0x85, 0xA0, 0x1680, 0x2000, 0x2001, 0x2002, 0x2003, 0x2004, 0x2005, 0x2006, 0x2007,
              0x2008, 0x2009, 0x200A, 0x2028, 0x2029, 0x202F, 0x205F, 0x3000}
  {
  }

  predicate NoSpace(s: string) {
    forall i | 0 <= i < |s| :: !IsSpace(s[i])
  }

  /** The leading characters that are no spaces. */
  function Word(s: string): (w: string)
    ensures |w| <= |s| && w == s[..|w|] && NoSpace(w)
    ensures |w| < |s| ==> IsSpace(s[|w|])
  {
    if s == [] || IsSpace(s[0]) then [] else [s[0]] + Word(s[1..])
  }

  /** strings.Fields: the words between runs of spaces. */
  function Fields(s: string): seq<string>
    decreases |s|
  {
    if s == [] then []
    else if IsSpace(s[0]) then Fields(s[1..])
    else [Word(s)] + Fields(s[|Word(s)|..])
  }

  lemma {:induction false} WordEnds(s: string, k: nat)
    requires k <= |s| && (forall i | 0 <= i < k :: !IsSpace(s[i])) && (k < |s| ==> IsSpace(s[k]))
    ensures Word(s) == s[..k]
    decreases k
  {
    hide IsSpace;
    if k > 0 {
      WordEnds(s[1..], k - 1);
      assert s[..k] == [s[0]] + s[1..][..k - 1];
    }
  }

  /** Words on either side of a space are read independently. */
  lemma {:induction false} FieldsAround(a: string, c: char, b: string)
    requires IsSpace(c)
    ensures Fields(a + [c] + b) == Fields(a) + Fields(b)
    decreases |a|
  {
    hide IsSpace;
    var s := a + [c] + b;
    if a == [] {
      assert s[1..] == b;
    } else if IsSpace(a[0]) {
      assert s[1..] == a[1..] + [c] + b;
      FieldsAround(a[1..], c, b);
    } else {
      var w := Word(a);
      assert s[..|w|] == w && forall i | 0 <= i < |w| :: s[i] == w[i];
      assert |w| < |a| ==> s[|w|] == a[|w|];
      WordEnds(s, |w|);
      if |w| == |a| {
        assert s[|w|..] == [c] + b && ([c] + b)[1..] == b;
        assert a[|w|..] == [];
      } else {
        assert s[|w|..] == a[|w|..] + [c] + b;
        FieldsAround(a[|w|..], c, b);
      }
    }
  }

  lemma OneField(w: string)
    requires w != [] && NoSpace(w)
    ensures Fields(w) == [w]
  {
    hide IsSpace;
    assert !IsSpace(w[0]);
    assert w[..|w|] == w;
    WordEnds(w, |w|);
    assert w[|w|..] == [];
  }

  // ---- addresses ----

  /** The number strconv.Atoi returns, also where it reports an error: 0 for no number, the nearest int for one out
      of range. */
  function AtoiValue(s: string): int {
    var signed := s != [] && (s[0] == '-' || s[0] == '+');
    var body := if signed then s[1..] else s;
    if body == [] || !AllDigits(body) then 0
    else if signed && s[0] == '-' then if Value(body) > MAX_INT + 1 then 0 - MAX_INT - 1 else 0 - Value(body)
    else if Value(body) > MAX_INT then MAX_INT else Value(body)
  }

  /** It is the number read if there is one, and otherwise 0 or, for a number out of range, the nearest int. */
  lemma AtoiValueIs(s: string)
    ensures Atoi(s).Some? ==> AtoiValue(s) == Atoi(s).value
    ensures Atoi(s).None? ==> AtoiValue(s) in {0, MAX_INT, 0 - MAX_INT - 1}
  {
    hide Value;
  }

  /** A number that does not fit is read as the nearest that does. */
  lemma AtoiClamps(d: string)
    requires AllDigits(d) && d != []
    ensures AtoiValue(d) == AtoiValue("+" + d) == (if Value(d) > MAX_INT then MAX_INT else Value(d))
    ensures AtoiValue("-" + d) == if Value(d) > MAX_INT + 1 then 0 - MAX_INT - 1 else 0 - Value(d)
    ensures AtoiValue("") == AtoiValue("+") == AtoiValue("-") == 0
  {
    hide Value;
    assert IsDigit(d[0]);
    assert ("+" + d)[1..] == d && ("-" + d)[1..] == d;
    assert "+"[1..] == [] && "-"[1..] == [];
  }

  /** `parseAddr`: IP, client port and announced hostname of "ip:port@cport[,hostname]". */
  function ParseAddr(s: string): (string, int, string) {
    var (addr, hostname) := match Cut(s, ',') case Some((a, h)) => (a, h) case None => (s, "");
    var ipPort := match Cut(addr, '@') case Some((a, _)) => a case None => addr;
    match Cut(ipPort, ':')
    case Some((ip, port)) => (ip, AtoiValue(port), hostname)
    case None => (ipPort, 0, hostname)
  }

  lemma AtoiValueOf(n: int)
    requires IsInt(n)
    ensures AtoiValue(Itoa(n)) == n
  {
    hide Digits, Value;
    var d := Digits(if n < 0 then 0 - n else n);
    ValueOfDigits(if n < 0 then 0 - n else n);
    if n < 0 {
      assert Itoa(n)[1..] == d;
    } else {
      assert IsDigit(d[0]);
    }
  }

  function WriteAddr(ip: string, port: int, cport: string, hostname: string): string {
    var addr := ip + [':'] + Itoa(port) + ['@'] + cport;
    if hostname == "" then addr else addr + [','] + hostname
  }

  /** Reading a written address gives back its parts. */
  lemma AddrRoundTrip(ip: string, port: int, cport: string, hostname: string)
    requires IsInt(port) && ':' !in ip && '@' !in ip && ',' !in ip && ',' !in cport
    ensures ParseAddr(WriteAddr(ip, port, cport, hostname)) == (ip, port, hostname)
  {
    ItoaChars(port);
    AtoiValueOf(port);
    hide Itoa, AtoiValue, Cut;
    var ipPort := ip + [':'] + Itoa(port);
    var addr := ipPort + ['@'] + cport;
    assert '@' !in ipPort && ',' !in addr;
    CutAt(ip, ':', Itoa(port));
    CutAt(ipPort, '@', cport);
    CutNone(addr, ',');
    CutAt(addr, ',', hostname);
  }

  // ---- nodes ----

  predicate IsMark(tok: string) {
    tok != [] && tok[0] == '['
  }

  /** The ranges among the slot tokens; markers and unreadable tokens are skipped. */
  function RangesIn(toks: seq<string>): seq<SlotRange> {
    if toks == [] then []
    else
      var last := toks[|toks| - 1];
      RangesIn(toks[..|toks| - 1]) +
        if IsMark(last) || ParseSlotToken(last).None? then [] else [ParseSlotToken(last).value]
  }

  /** The node a line's words describe; lines of fewer than eight words are skipped. */
  function NodeIn(fields: seq<string>): Option<NodeInfo> {
    if |fields| < 8 then None
    else
      var (ip, port, hostname) := ParseAddr(fields[1]);
      Some(NodeInfo(
        fields[0], if hostname == "" then ip else hostname, ip, port, Split(fields[2], ','),
        if fields[3] == "-" then "" else fields[3], RangesIn(fields[8..]), fields[7] == "connected"))
  }

  function NodesIn(lines: seq<string>): seq<NodeInfo> {
    if lines == [] then []
    else
      var last := NodeIn(Fields(lines[|lines| - 1]));
      NodesIn(lines[..|lines| - 1]) + if last.Some? then [last.value] else []
  }

  /** Parse CLUSTER NODES output. */
  method ParseNodes(text: string) returns (nodes: seq<NodeInfo>)
    ensures nodes == NodesIn(Split(text, '\n'))
  {
    hide Split, Fields, ParseAddr, ParseSlotToken;
    nodes := [];
    var lines := Split(text, '\n');
    for i := 0 to |lines|
      invariant nodes == NodesIn(lines[..i])
    {
      assert lines[..i + 1][..i] == lines[..i];
      var fields := Fields(lines[i]);
      if |fields| < 8 {
        continue;
      }
      var (ip, port, hostname) := ParseAddr(fields[1]);
      var host := if hostname == "" then ip else hostname;
      var flags := Split(fields[2], ',');
      var master := if fields[3] == "-" then "" else fields[3];
      var slots: seq<SlotRange> := [];
      var toks := fields[8..];
      for k := 0 to |toks|
        invariant slots == RangesIn(toks[..k])
      {
        assert toks[..k + 1][..k] == toks[..k];
        if IsMark(toks[k]) {
          continue;
        }
        var r := ParseSlotToken(toks[k]);
        if r.Some? {
          slots := slots + [r.value];
        }
      }
      assert toks[..|toks|] == toks;
      nodes := nodes + [NodeInfo(fields[0], host, ip, port, flags, master, slots, fields[7] == "connected")];
    }
    assert lines[..|lines|] == lines;
  }

  // ---- open slots ----

  /** The leading digits. */
  function Leading(s: string): (d: string)
    ensures |d| <= |s| && d == s[..|d|] && AllDigits(d)
    ensures |d| < |s| ==> !IsDigit(s[|d|])
  {
    if s == [] || !IsDigit(s[0]) then [] else [s[0]] + Leading(s[1..])
  }

  /** The slot a marker names. */
  function MarkedSlot(tok: string): Option<int> {
    if !IsMark(tok) || Leading(tok[1..]) == [] then None else Atoi(Leading(tok[1..]))
  }

  /** The slots marked open anywhere among the words. */
  function OpenIn(fields: seq<string>): set<int> {
    if fields == [] then {}
    else
      var last := MarkedSlot(fields[|fields| - 1]);
      OpenIn(fields[..|fields| - 1]) + if last.Some? then {last.value} else {}
  }

  /** The distinct slots marked open in CLUSTER NODES output. */
  method ParseOpenSlots(text: string) returns (slots: seq<int>)
    ensures forall s :: s in slots <==> s in OpenIn(Fields(text))
    ensures Distinct(slots)
  {
    hide Fields, Atoi;
    slots := [];
    var seen: set<int> := {};
    var fields := Fields(text);
    for i := 0 to |fields|
      invariant seen == OpenIn(fields[..i])
    {
      assert fields[..i + 1][..i] == fields[..i];
      if !IsMark(fields[i]) {
        continue;
      }
      var body := fields[i][1..];
      var end := 0;
      while end < |body| && IsDigit(body[end])
        invariant 0 <= end <= |body| && forall k | 0 <= k < end :: IsDigit(body[k])
      {
        end := end + 1;
      }
      LeadingEnds(body, end);
      if end == 0 {
        continue;
      }
      var n := Atoi(body[..end]);
      if n.Some? {
        seen := seen + {n.value};
      }
    }
    assert fields[..|fields|] == fields;
    var rest := seen;
    while rest != {}
      invariant rest <= seen && Distinct(slots) && forall s :: s in slots <==> s in seen && s !in rest
      decreases |rest|
    {
      var s := PickAny(rest);
      rest := rest - {s};
      slots := slots + [s];
    }
  }

  lemma {:induction false} LeadingEnds(s: string, k: nat)
    requires k <= |s| && (forall i | 0 <= i < k :: IsDigit(s[i])) && (k < |s| ==> !IsDigit(s[k]))
    ensures Leading(s) == s[..k]
    decreases k
  {
    hide IsDigit;
    if k > 0 {
      LeadingEnds(s[1..], k - 1);
      assert s[..k] == [s[0]] + s[1..][..k - 1];
    }
  }

  // ---- well-formed output ----

  /** A slot token: an owned range, or a marker such as "[781->-id]". */
  datatype Token = Range(r: SlotRange) | Mark(slot: int, towards: string)

  /** One line of CLUSTER NODES. */
  datatype Entry = Entry(
    id: string, ip: string, port: int, cport: string, hostname: string, flags: seq<string>, master: string,
    ping: string, pong: string, epoch: string, link: string, tokens: seq<Token>)

  function WriteToken(t: Token): string {
    match t
    case Range(r) => FormatRange(r)
    case Mark(slot, towards) => ['['] + Itoa(slot) + towards
  }

  function WriteTokens(ts: seq<Token>): seq<string> {
    if ts == [] then [] else WriteTokens(ts[..|ts| - 1]) + [WriteToken(ts[|ts| - 1])]
  }

  /** The eight words before the slots. */
  function Head(e: Entry): seq<string> {
    [e.id, WriteAddr(e.ip, e.port, e.cport, e.hostname), Join(e.flags, ','), if e.master == "" then "-" else e.master,
     e.ping, e.pong, e.epoch, e.link]
  }

  function Words(e: Entry): seq<string> {
    Head(e) + WriteTokens(e.tokens)
  }

  function WriteLines(es: seq<Entry>): seq<string> {
    seq(|es|, i requires 0 <= i < |es| => Join(Words(es[i]), ' '))
  }

  /** Every line ends with a newline. */
  function WriteText(lines: seq<string>): string {
    if lines == [] then "" else lines[0] + ['\n'] + WriteText(lines[1..])
  }

  /** A word of the line: not empty, without spaces, and no marker. */
  predicate Plain(s: string) {
    s != [] && NoSpace(s) && s[0] != '['
  }

  predicate TokenOK(t: Token) {
    match t
    case Range(r) => 0 <= r.start <= MAX_INT && 0 <= r.end <= MAX_INT
    case Mark(slot, towards) => 0 <= slot <= MAX_INT && NoSpace(towards) && (towards == [] || !IsDigit(towards[0]))
  }

  predicate EntryOK(e: Entry) {
    && Plain(e.id) && NoSpace(e.ip) && !IsMark(e.ip) && NoSpace(e.cport) && NoSpace(e.hostname)
    && IsInt(e.port) && ':' !in e.ip && '@' !in e.ip && ',' !in e.ip && ',' !in e.cport
    && e.flags != [] && (forall i | 0 <= i < |e.flags| :: Plain(e.flags[i]) && ',' !in e.flags[i])
    && (e.master == "" || (Plain(e.master) && e.master != "-"))
    && Plain(e.ping) && Plain(e.pong) && Plain(e.epoch) && Plain(e.link)
    && (forall i | 0 <= i < |e.tokens| :: TokenOK(e.tokens[i]))
  }

  function OwnedRanges(ts: seq<Token>): seq<SlotRange> {
    if ts == [] then []
    else OwnedRanges(ts[..|ts| - 1]) + if ts[|ts| - 1].Range? then [ts[|ts| - 1].r] else []
  }

  function MarkedSlots(ts: seq<Token>): set<int> {
    if ts == [] then {}
    else MarkedSlots(ts[..|ts| - 1]) + if ts[|ts| - 1].Mark? then {ts[|ts| - 1].slot} else {}
  }

  function NodeOf(e: Entry): NodeInfo {
    NodeInfo(e.id, if e.hostname == "" then e.ip else e.hostname, e.ip, e.port, e.flags, e.master,
             OwnedRanges(e.tokens), e.link == "connected")
  }

  /** A node is read as a master if it is flagged so or its line names no master. */
  lemma PrimaryRead(e: Entry)
    ensures NodeOf(e).IsPrimary() <==> (exists i :: 0 <= i < |e.flags| && e.flags[i] == "master") || e.master == ""
  {
  }

  function NodesOf(es: seq<Entry>): seq<NodeInfo> {
    seq(|es|, i requires 0 <= i < |es| => NodeOf(es[i]))
  }

  function AllMarked(es: seq<Entry>): set<int> {
    if es == [] then {} else MarkedSlots(es[0].tokens) + AllMarked(es[1..])
  }

  // ---- splitting what was joined ----

  lemma {:induction false} SplitText(lines: seq<string>)
    requires forall i | 0 <= i < |lines| :: '\n' !in lines[i]
    ensures Split(WriteText(lines), '\n') == lines + [""]
  {
    if lines != [] {
      CutAt(lines[0], '\n', WriteText(lines[1..]));
      SplitText(lines[1..]);
      assert lines + [""] == [lines[0]] + (lines[1..] + [""]);
    }
  }

  lemma {:induction false} FieldsJoin(words: seq<string>)
    requires forall i | 0 <= i < |words| :: words[i] != [] && NoSpace(words[i])
    ensures Fields(Join(words, ' ')) == words
  {
    hide IsSpace, NoSpace, Fields;
    if words == [] {
      NoFields();
    } else {
      OneField(words[0]);
      SpaceIsSpace();
      if |words| == 1 {
        assert words == [words[0]];
      } else {
        FieldsAround(words[0], ' ', Join(words[1..], ' '));
        FieldsJoin(words[1..]);
        assert words == [words[0]] + words[1..];
      }
    }
  }

  lemma NoFields()
    ensures Fields("") == []
  {
  }

  lemma SpaceIsSpace()
    ensures IsSpace(' ') && IsSpace('\n') && !IsSpace('-') && !IsSpace(':') && !IsSpace('@') && !IsSpace(',')
    ensures !IsSpace('[')
    ensures forall c | IsDigit(c) :: !IsSpace(c)
  {
  }

  // ---- tokens ----

  lemma RangeToken(r: SlotRange)
    requires TokenOK(Range(r))
    ensures var s := FormatRange(r); Plain(s) && ParseSlotToken(s) == Some(r)
  {
    RangeRoundTrip(r);
    ItoaChars(r.start);
    ItoaChars(r.end);
    SpaceIsSpace();
    hide ParseSlotToken, Itoa, IsSpace, IsDigit;
    assert '[' != '-' && !IsDigit('[') by { NotADigit(); }
  }

  lemma NotADigit()
    ensures !IsDigit('[')
  {
  }

  lemma LeadingOf(d: string, rest: string)
    requires AllDigits(d) && (rest == [] || !IsDigit(rest[0]))
    ensures Leading(d + rest) == d
  {
    hide IsDigit;
    var s := d + rest;
    assert forall i | 0 <= i < |d| :: s[i] == d[i];
    LeadingEnds(s, |d|);
    assert s[..|d|] == d;
  }

  lemma MarkToken(slot: int, towards: string)
    requires TokenOK(Mark(slot, towards))
    ensures var s := WriteToken(Mark(slot, towards)); IsMark(s) && NoSpace(s) && MarkedSlot(s) == Some(slot)
  {
    hide Atoi, IsSpace, IsDigit, Leading, Digits, NoSpace;
    AtoiOfItoa(slot);
    var d := Itoa(slot);
    LeadingOf(d, towards);
    var s := ['['] + d + towards;
    assert s[1..] == d + towards;
    BracketWord();
    NoSpaceNumber(slot);
    NoSpaceConcat(['['], d);
    NoSpaceConcat(['['] + d, towards);
  }

  lemma BracketWord()
    ensures NoSpace(['['])
  {
  }

  lemma {:induction false} TokensRead(ts: seq<Token>)
    requires forall i | 0 <= i < |ts| :: TokenOK(ts[i])
    ensures RangesIn(WriteTokens(ts)) == OwnedRanges(ts) && OpenIn(WriteTokens(ts)) == MarkedSlots(ts)
    ensures forall i | 0 <= i < |WriteTokens(ts)| :: WriteTokens(ts)[i] != [] && NoSpace(WriteTokens(ts)[i])
  {
    hide TokenOK, WriteToken, ParseSlotToken, NoSpace, MarkedSlot;
    if ts != [] {
      var rest, last := ts[..|ts| - 1], ts[|ts| - 1];
      TokensRead(rest);
      var words := WriteTokens(ts);
      assert words[..|words| - 1] == WriteTokens(rest) && words[|words| - 1] == WriteToken(last);
      TokenRead(last);
    }
  }

  lemma TokenRead(t: Token)
    requires TokenOK(t)
    ensures var s := WriteToken(t);
            && s != [] && NoSpace(s)
            && (t.Range? ==> !IsMark(s) && ParseSlotToken(s) == Some(t.r) && MarkedSlot(s) == None)
            && (t.Mark? ==> IsMark(s) && MarkedSlot(s) == Some(t.slot))
  {
    hide FormatRange, ParseSlotToken, NoSpace, TokenOK, Leading;
    match t
    case Range(r) => RangeToken(r);
    case Mark(slot, towards) => MarkToken(slot, towards);
  }

  // ---- whole lines ----

  lemma NoSpaceConcat(a: string, b: string)
    requires NoSpace(a) && NoSpace(b)
    ensures NoSpace(a + b)
  {
    hide IsSpace;
  }

  lemma NoSpaceNumber(n: int)
    ensures NoSpace(Itoa(n))
  {
    ItoaChars(n);
    SpaceIsSpace();
    hide IsSpace, Itoa, IsDigit;
  }

  lemma AddrWord(e: Entry)
    requires EntryOK(e)
    ensures Plain(WriteAddr(e.ip, e.port, e.cport, e.hostname))
  {
    NoSpaceNumber(e.port);
    SpaceIsSpace();
    hide IsSpace, Itoa, IsDigit;
    assert NoSpace([':']) && NoSpace(['@']) && NoSpace([',']);
    NoSpaceConcat(e.ip, [':']);
    NoSpaceConcat(e.ip + [':'], Itoa(e.port));
    NoSpaceConcat(e.ip + [':'] + Itoa(e.port), ['@']);
    NoSpaceConcat(e.ip + [':'] + Itoa(e.port) + ['@'], e.cport);
    var addr := e.ip + [':'] + Itoa(e.port) + ['@'] + e.cport;
    assert addr[0] == if e.ip == [] then ':' else e.ip[0];
    NoSpaceConcat(addr, [',']);
    NoSpaceConcat(addr + [','], e.hostname);
  }

  lemma {:induction false} FlagsWord(flags: seq<string>)
    requires flags != [] && forall i | 0 <= i < |flags| :: Plain(flags[i])
    ensures Plain(Join(flags, ','))
  {
    hide IsSpace;
    if |flags| > 1 {
      FlagsWord(flags[1..]);
      SpaceIsSpace();
      NoSpaceConcat(flags[0], [',']);
      NoSpaceConcat(flags[0] + [','], Join(flags[1..], ','));
    }
  }

  lemma HeadWords(e: Entry)
    requires EntryOK(e)
    ensures |Head(e)| == 8 && forall i | 0 <= i < 8 :: Plain(Head(e)[i])
  {
    hide IsSpace, WriteAddr, Join, NoSpace;
    AddrWord(e);
    FlagsWord(e.flags);
    DashWord();
  }

  lemma DashWord()
    ensures Plain("-")
  {
    assert !IsSpace('-');
  }

  lemma LineWords(e: Entry)
    requires EntryOK(e)
    ensures var words := Words(e);
            && (forall i | 0 <= i < |words| :: words[i] != [] && NoSpace(words[i]))
            && |words| >= 8 && words[8..] == WriteTokens(e.tokens) && words[..8] == Head(e)
  {
    hide NoSpace, Head, WriteTokens;
    HeadWords(e);
    TokensRead(e.tokens);
  }

  /** Reading a written line gives back its node. */
  lemma LineRoundTrip(e: Entry)
    requires EntryOK(e)
    ensures NodeIn(Words(e)) == Some(NodeOf(e))
  {
    LineWords(e);
    AddrRoundTrip(e.ip, e.port, e.cport, e.hostname);
    SplitJoin(e.flags, ',');
    TokensRead(e.tokens);
    hide ParseAddr, WriteAddr, Split, Join, RangesIn, WriteTokens, OwnedRanges, NoSpace, TokenOK;
    assert forall i | 0 <= i < 8 :: Words(e)[i] == Head(e)[i];
  }

  lemma {:induction false} OpenConcat(a: seq<string>, b: seq<string>)
    ensures OpenIn(a + b) == OpenIn(a) + OpenIn(b)
  {
    hide MarkedSlot;
    if b == [] {
      assert a + b == a;
    } else {
      assert (a + b)[..|a + b| - 1] == a + b[..|b| - 1];
      OpenConcat(a, b[..|b| - 1]);
    }
  }

  lemma {:induction false} NoMarks(words: seq<string>)
    requires forall i | 0 <= i < |words| :: !IsMark(words[i])
    ensures OpenIn(words) == {}
  {
    hide IsMark;
    if words != [] {
      NoMarks(words[..|words| - 1]);
    }
  }

  lemma LineOpens(e: Entry)
    requires EntryOK(e)
    ensures Fields(Join(Words(e), ' ')) == Words(e) && OpenIn(Words(e)) == MarkedSlots(e.tokens)
  {
    hide IsSpace, EntryOK, Words, OpenIn, WriteTokens, MarkedSlots, Fields, Join, NoSpace;
    var words := Words(e);
    LineWords(e);
    FieldsJoin(words);
    HeadWords(e);
    NoMarks(words[..8]);
    TokensOpen(e);
    OpenConcat(words[..8], words[8..]);
    assert words == words[..8] + words[8..];
  }

  lemma TokensOpen(e: Entry)
    requires EntryOK(e)
    ensures OpenIn(WriteTokens(e.tokens)) == MarkedSlots(e.tokens)
  {
    TokensRead(e.tokens);
  }

  // ---- whole texts ----

  lemma {:induction false} JoinHasNoNewline(words: seq<string>)
    requires forall i | 0 <= i < |words| :: NoSpace(words[i])
    ensures '\n' !in Join(words, ' ')
  {
    SpaceIsSpace();
    hide IsSpace;
    if words != [] {
      assert forall i | 0 <= i < |words[0]| :: words[0][i] != '\n';
      if |words| > 1 {
        JoinHasNoNewline(words[1..]);
      }
    }
  }

  lemma {:induction false} LinesRead(es: seq<Entry>)
    requires forall i | 0 <= i < |es| :: EntryOK(es[i])
    ensures NodesIn(WriteLines(es)) == NodesOf(es)
  {
    hide EntryOK, NodeIn, Words, Join, Fields, NodeOf;
    if es != [] {
      var rest, last := es[..|es| - 1], es[|es| - 1];
      LinesRead(rest);
      LineOpens(last);
      LineRoundTrip(last);
      assert WriteLines(es)[..|es| - 1] == WriteLines(rest);
      assert NodesOf(es) == NodesOf(rest) + [NodeOf(last)];
    }
  }

  /** On any well-formed text the parser recovers exactly the nodes and the ranges they own, whatever markers stand
      between them. */
  lemma NodesRoundTrip(es: seq<Entry>)
    requires forall i | 0 <= i < |es| :: EntryOK(es[i])
    ensures NodesIn(Split(WriteText(WriteLines(es)), '\n')) == NodesOf(es)
  {
    hide EntryOK, NodeIn, Words, Join, Fields, NodeOf, Split, WriteText;
    var lines := WriteLines(es);
    forall i | 0 <= i < |lines|
      ensures '\n' !in lines[i]
    {
      LineWords(es[i]);
      JoinHasNoNewline(Words(es[i]));
    }
    SplitText(lines);
    LinesRead(es);
    EmptyLine();
    assert (lines + [""])[..|lines|] == lines;
  }

  lemma EmptyLine()
    ensures NodeIn(Fields("")) == None
  {
  }

  /** On any well-formed text the sweep recovers exactly the marked slots. */
  lemma {:induction false} OpenSlotsRoundTrip(es: seq<Entry>)
    requires forall i | 0 <= i < |es| :: EntryOK(es[i])
    ensures OpenIn(Fields(WriteText(WriteLines(es)))) == AllMarked(es)
  {
    hide EntryOK, Words, Join, Fields, MarkedSlots, OpenIn, IsSpace;
    if es == [] {
      NoFields();
      NoMarks([]);
    } else {
      var line := Join(Words(es[0]), ' ');
      OpenSlotsRoundTrip(es[1..]);
      LineOpens(es[0]);
      assert WriteLines(es)[0] == line && WriteLines(es)[1..] == WriteLines(es[1..]);
      SpaceIsSpace();
      FieldsAround(line, '\n', WriteText(WriteLines(es[1..])));
      OpenConcat(Words(es[0]), Fields(WriteText(WriteLines(es[1..]))));
    }
  }
}
