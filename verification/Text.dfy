/** Decimal numbers and string splitting as Go's strconv and strings packages do them. */
module Text {
  import opened Wrappers

  const MAX_INT: int := 0x7fff_ffff_ffff_ffff

  /** The values of Go's 64-bit int. */
  predicate IsInt(n: int) {
    -MAX_INT - 1 <= n <= MAX_INT
  }

  predicate IsDigit(c: char) {
    '0' <= c <= '9'
  }

  predicate AllDigits(s: string) {
    forall i | 0 <= i < |s| :: IsDigit(s[i])
  }

  function Digit(d: nat): (c: char)
    requires d < 10
    ensures IsDigit(c) && c as int - '0' as int == d
  {
    ('0' as int + d) as char
  }

  function Digits(n: nat): (s: string)
    ensures s != [] && AllDigits(s)
  {
    if n < 10 then [Digit(n)] else Digits(n / 10) + [Digit(n % 10)]
  }

  /** strconv.Itoa. */
  function Itoa(n: int): string {
    if n < 0 then "-" + Digits(-n) else Digits(n)
  }

  function Value(s: string): nat
    requires AllDigits(s)
  {
    if s == [] then 0 else 10 * Value(s[..|s| - 1]) + (s[|s| - 1] as int - '0' as int)
  }

  /** strconv.Atoi: an optional sign, at least one digit, in the range of int. */
  function Atoi(s: string): Option<int> {
    var signed := s != [] && (s[0] == '-' || s[0] == '+');
    var body := if signed then s[1..] else s;
    if body == [] || !AllDigits(body) then None
    else
      var n: int := if signed && s[0] == '-' then 0 - Value(body) else Value(body);
      if IsInt(n) then Some(n) else None
  }

  lemma {:induction false} ValueOfDigits(n: nat)
    ensures Value(Digits(n)) == n
  {
    if n >= 10 {
      ValueOfDigits(n / 10);
      assert Digits(n)[..|Digits(n)| - 1] == Digits(n / 10);
    }
  }

  /** Atoi undoes Itoa on every int. */
  lemma AtoiOfItoa(n: int)
    requires IsInt(n)
    ensures Atoi(Itoa(n)) == Some(n)
  {
    hide Digits, Value;
    var d := Digits(if n < 0 then 0 - n else n);
    ValueOfDigits(if n < 0 then 0 - n else n);
    if n < 0 {
      assert Itoa(n)[1..] == d;
    } else {
      assert IsDigit(d[0]);
    }
  }

  /** What Atoi reads: digits with or without a sign, up to the largest int, or one more below zero. */
  lemma AtoiReads(d: string)
    requires AllDigits(d) && d != []
    ensures Atoi(d) == Atoi("+" + d) == (if Value(d) <= MAX_INT then Some(Value(d)) else None)
    ensures Atoi("-" + d) == if Value(d) <= MAX_INT + 1 then Some(0 - Value(d)) else None
    ensures Atoi("") == Atoi("+") == Atoi("-") == None
  {
    hide Value;
    assert IsDigit(d[0]);
    assert ("+" + d)[1..] == d && ("-" + d)[1..] == d;
    assert "+"[1..] == [] && "-"[1..] == [];
  }

  lemma ItoaChars(n: int)
    ensures Itoa(n) != [] && forall i | 0 <= i < |Itoa(n)| :: IsDigit(Itoa(n)[i]) || Itoa(n)[i] == '-'
  {
    var s := if n < 0 then Digits(0 - n) else Digits(n);
    assert AllDigits(s);
  }

  /** strings.Cut at a one-character separator: the parts before and after its first occurrence. */
  function Cut(s: string, sep: char): Option<(string, string)> {
    if s == [] then None
    else if s[0] == sep then Some(([], s[1..]))
    else match Cut(s[1..], sep)
      case None => None
      case Some((before, after)) => Some(([s[0]] + before, after))
  }

  /** A string with the separator in it is cut at the first one. */
  lemma {:induction false} CutAt(before: string, sep: char, after: string)
    requires sep !in before
    ensures Cut(before + [sep] + after, sep) == Some((before, after))
  {
    var s := before + [sep] + after;
    if before == [] {
      assert s[1..] == after;
    } else {
      assert s[1..] == before[1..] + [sep] + after;
      CutAt(before[1..], sep, after);
      assert [before[0]] + before[1..] == before;
    }
  }

  lemma {:induction false} CutNone(s: string, sep: char)
    requires sep !in s
    ensures Cut(s, sep) == None
  {
    if s != [] {
      CutNone(s[1..], sep);
    }
  }

  /** strings.Split at a one-character separator. */
  function Split(s: string, sep: char): seq<string>
    decreases |s|
  {
    match Cut(s, sep)
    case None => [s]
    case Some((before, after)) => CutShrinks(s, sep); [before] + Split(after, sep)
  }

  lemma {:induction false} CutShrinks(s: string, sep: char)
    ensures Cut(s, sep).Some? ==> s == Cut(s, sep).value.0 + [sep] + Cut(s, sep).value.1 && sep !in Cut(s, sep).value.0
  {
    if s != [] && s[0] != sep {
      CutShrinks(s[1..], sep);
    }
  }

  /** strings.Join with a one-character separator. */
  function Join(words: seq<string>, sep: char): string {
    if words == [] then "" else if |words| == 1 then words[0] else words[0] + [sep] + Join(words[1..], sep)
  }

  lemma {:induction false} SplitJoin(words: seq<string>, sep: char)
    requires words != [] && forall i | 0 <= i < |words| :: sep !in words[i]
    ensures Split(Join(words, sep), sep) == words
  {
    if |words| == 1 {
      CutNone(words[0], sep);
      assert words == [words[0]];
    } else {
      CutAt(words[0], sep, Join(words[1..], sep));
      SplitJoin(words[1..], sep);
      assert words == [words[0]] + words[1..];
    }
  }
}
