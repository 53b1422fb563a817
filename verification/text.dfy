/**
 * The string primitives of the .NET runtime that the conversation engine relies on,
 * with the meaning the runtime gives them on Windows. Culture-sensitive operations
 * (ToLower, StartsWith with a string argument, OrderBy on strings) are modelled by
 * their ordinal / ASCII counterparts.
 */
module Text {

  /** Environment.NewLine on Windows: what StringBuilder.AppendLine appends. */
  const NewLine: string := "\r\n"

  /** Char.IsWhiteSpace: the Unicode space separators, line/paragraph separators and the
      white-space control characters U+0009..U+000D and U+0085. */
  predicate IsWhiteSpace(c: char) {
    var n := c as int;
    (9 <= n <= 13) || n == 32 || n == 0x85 || n == 0xA0 || n == 0x1680
    || (0x2000 <= n <= 0x200A) || n == 0x2028 || n == 0x2029 || n == 0x202F
    || n == 0x205F || n == 0x3000
  }

  /** string.IsNullOrWhiteSpace on a non-null string: every character is white space. */
  predicate IsBlank(s: string) {
    forall i :: 0 <= i < |s| ==> IsWhiteSpace(s[i])
  }

  /** string.TrimStart(): drops the leading white space and nothing else. */
  function TrimStart(s: string): (r: string)
    ensures |r| <= |s| && r == s[|s| - |r|..]
    ensures IsBlank(s[..|s| - |r|])
    ensures r == [] || !IsWhiteSpace(r[0])
  {
    if s != [] && IsWhiteSpace(s[0]) then TrimStart(s[1..]) else s
  }

  /** The trailing counterpart of TrimStart. */
  function TrimEnd(s: string): (r: string)
    ensures r <= s
    ensures IsBlank(s[|r|..])
    ensures r == [] || !IsWhiteSpace(r[|r| - 1])
  {
    if s != [] && IsWhiteSpace(s[|s| - 1]) then TrimEnd(s[..|s| - 1]) else s
  }

  /** string.Trim(). */
  function Trim(s: string): string {
    TrimEnd(TrimStart(s))
  }

  /** Trimming leaves nothing exactly when the input was blank. */
  lemma TrimEmptyIffBlank(s: string)
    ensures Trim(s) == [] <==> IsBlank(s)
  {
    var t := TrimStart(s);
    var d := |s| - |t|;
    if t != [] {
      assert t[0] == s[d];
    } else {
      assert s[..d] == s;
    }
  }

  /** A non-empty trimmed string starts and ends with a non-white-space character. */
  lemma TrimmedEnds(s: string)
    requires Trim(s) != []
    ensures !IsWhiteSpace(Trim(s)[0]) && !IsWhiteSpace(Trim(s)[|Trim(s)| - 1])
  {
    var t := TrimStart(s);
    assert Trim(s) <= t;
    assert Trim(s)[0] == t[0];
  }

  /** ASCII lower-casing of one character. */
  function LowerChar(c: char): char {
    if 'A' <= c <= 'Z' then (c as int + 32) as char else c
  }

  /** string.ToLower(), restricted to the ASCII letters. */
  function ToLower(s: string): (r: string)
    ensures |r| == |s|
  {
    seq(|s|, i requires 0 <= i < |s| => LowerChar(s[i]))
  }

  /** Replaces every occurrence of the character c by rep, left to right
      (string.Replace with a one-character search string is an ordinal replacement). */
  function ReplaceChar(s: string, c: char, rep: string): (r: string)
    ensures c !in rep ==> c !in r
  {
    if s == [] then [] else (if s[0] == c then rep else [s[0]]) + ReplaceChar(s[1..], c, rep)
  }

  lemma {:induction false} ReplaceCharAppend(a: string, b: string, c: char, rep: string)
    ensures ReplaceChar(a + b, c, rep) == ReplaceChar(a, c, rep) + ReplaceChar(b, c, rep)
  {
    if a != [] {
      var head := if a[0] == c then rep else [a[0]];
      assert (a + b)[0] == a[0];
      assert (a + b)[1..] == a[1..] + b;
      ReplaceCharAppend(a[1..], b, c, rep);
      calc {
        ReplaceChar(a + b, c, rep);
        head + ReplaceChar(a[1..] + b, c, rep);
        head + (ReplaceChar(a[1..], c, rep) + ReplaceChar(b, c, rep));
        (head + ReplaceChar(a[1..], c, rep)) + ReplaceChar(b, c, rep);
      }
    } else {
      assert a + b == b;
    }
  }

  /** A character that is neither in the input nor in the replacement stays absent. */
  lemma {:induction false} ReplaceCharKeepsAbsent(s: string, c: char, rep: string, d: char)
    requires d !in s && d !in rep
    ensures d !in ReplaceChar(s, c, rep)
  {
    if s != [] {
      assert d !in s[1..];
      ReplaceCharKeepsAbsent(s[1..], c, rep, d);
    }
  }

  /** n copies of the character c. */
  function Repeat(c: char, n: nat): (r: string)
    ensures |r| == n && forall i :: 0 <= i < n ==> r[i] == c
  {
    seq(n, _ => c)
  }

  /** string.TrimEnd(c): drops every trailing occurrence of c. */
  function TrimTrailing(s: string, c: char): (r: string)
    ensures r <= s
    ensures r == [] || r[|r| - 1] != c
    ensures forall i :: |r| <= i < |s| ==> s[i] == c
  {
    if s != [] && s[|s| - 1] == c then TrimTrailing(s[..|s| - 1], c) else s
  }

  /** Appending more of the trimmed character does not change what trimming leaves. */
  lemma {:induction false} TrimTrailingRun(s: string, run: string, c: char)
    requires forall i :: 0 <= i < |run| ==> run[i] == c
    ensures TrimTrailing(s + run, c) == TrimTrailing(s, c)
    decreases |run|
  {
    if run != [] {
      var t := s + run;
      assert t[|t| - 1] == c;
      assert t[..|t| - 1] == s + run[..|run| - 1];
      TrimTrailingRun(s, run[..|run| - 1], c);
    } else {
      assert s + run == s;
    }
  }

  function DigitChar(d: nat): char
    requires d < 10
  {
    "0123456789"[d]
  }

  predicate IsDigits(s: string) {
    forall i :: 0 <= i < |s| ==> '0' <= s[i] <= '9'
  }

  /** The largest value of a C# int (Int32.MaxValue). */
  const Int32Max: int := 0x7FFF_FFFF

  /** A C# int: a 32-bit two's-complement integer. */
  type Int32 = x: int | -Int32Max - 1 <= x <= Int32Max

  /** Decimal rendering of a natural number, as Int32.ToString() gives it. */
  function NatToString(n: nat): (r: string)
    ensures r != [] && IsDigits(r)
  {
    if n < 10 then [DigitChar(n)] else NatToString(n / 10) + [DigitChar(n % 10)]
  }

  /** Decimal rendering of an integer, with a leading '-' when it is negative. */
  function IntToString(i: int): string {
    if i < 0 then "-" + NatToString(-i) else NatToString(i)
  }

  /** The value a string of decimal digits denotes. */
  function DigitsValue(s: string): nat
    requires IsDigits(s)
  {
    if s == [] then 0 else DigitsValue(s[..|s| - 1]) * 10 + (s[|s| - 1] as int - '0' as int)
  }

  /** Reading back a rendered number gives the number. */
  lemma {:induction false} NatToStringRoundTrip(n: nat)
    ensures DigitsValue(NatToString(n)) == n
  {
    if n >= 10 {
      NatToStringRoundTrip(n / 10);
      var s := NatToString(n);
      assert s[..|s| - 1] == NatToString(n / 10);
    }
  }

  /** The text of an integer: decimal digits, possibly after a minus sign. */
  predicate IsIntText(s: string) {
    s != [] && (IsDigits(s) || (s[0] == '-' && IsDigits(s[1..])))
  }

  /** The integer an integer text denotes. */
  function IntValue(s: string): int
    requires IsIntText(s)
  {
    if s[0] == '-' then -(DigitsValue(s[1..]) as int) else DigitsValue(s)
  }

  /** Reading back a rendered integer gives the integer. */
  lemma {:induction false} IntToStringRoundTrip(i: int)
    ensures IsIntText(IntToString(i)) && IntValue(IntToString(i)) == i
  {
    var n: nat := if i < 0 then -i else i;
    NatToStringRoundTrip(n);
    if i < 0 {
      SignedText(NatToString(n));
    } else {
      UnsignedText(NatToString(n));
    }
  }

  lemma UnsignedText(digits: string)
    requires digits != [] && IsDigits(digits)
    ensures IsIntText(digits) && IntValue(digits) == DigitsValue(digits)
  {
    assert '0' <= digits[0] <= '9';
  }

  /** A minus sign before digits makes an integer text denoting their negated value. */
  lemma SignedText(digits: string)
    requires digits != [] && IsDigits(digits)
    ensures IsIntText("-" + digits) && IntValue("-" + digits) == -(DigitsValue(digits) as int)
  {
    var s := "-" + digits;
    assert s[0] == '-' && s[1..] == digits;
  }

  /** The text a StringBuilder holds after AppendLine(l) for each l of lines, in order. */
  function Unlines(lines: seq<string>): string {
    if lines == [] then "" else Unlines(lines[..|lines| - 1]) + lines[|lines| - 1] + NewLine
  }

  lemma {:induction false} UnlinesAppend(a: seq<string>, b: seq<string>)
    ensures Unlines(a + b) == Unlines(a) + Unlines(b)
    decreases |b|
  {
    if b != [] {
      var b' := b[..|b| - 1];
      assert (a + b)[..|a + b| - 1] == a + b';
      UnlinesAppend(a, b');
    } else {
      assert a + b == a;
    }
  }

  /** The first line opens the text. */
  lemma {:induction false} UnlinesStartsWithFirst(lines: seq<string>)
    requires lines != []
    ensures lines[0] <= Unlines(lines)
    decreases |lines|
  {
    var init := lines[..|lines| - 1];
    if init != [] {
      UnlinesStartsWithFirst(init);
      assert init[0] == lines[0];
    }
  }

  /** System.Text.StringBuilder as the engine uses it: a text built by appending lines. */
  class StringBuilder {
    var text: string
    /** The lines appended so far. */
    ghost var lines: seq<string>

    ghost predicate Valid()
      reads this
    {
      text == Unlines(lines)
    }

    constructor ()
      ensures Valid() && lines == []
    {
      text := "";
      lines := [];
    }

    /** AppendLine(line): the line followed by the newline sequence. */
    method AppendLine(line: string)
      requires Valid()
      modifies this
      ensures Valid() && lines == old(lines) + [line]
    {
      text := text + line + NewLine;
      lines := lines + [line];
      assert lines[..|lines| - 1] == old(lines);
    }

    function ToString(): (r: string)
      reads this
      requires Valid()
      ensures r == Unlines(lines)
    {
      text
    }
  }

  /** Each name preceded by the given indentation, one line per name. */
  function Prefixed(prefix: string, names: seq<string>): (r: seq<string>)
    ensures |r| == |names|
  {
    seq(|names|, i requires 0 <= i < |names| => prefix + names[i])
  }

  /** One more name adds one more line at the end. */
  lemma PrefixedStep(prefix: string, names: seq<string>, i: nat)
    requires i < |names|
    ensures Unlines(Prefixed(prefix, names[..i + 1]))
         == Unlines(Prefixed(prefix, names[..i])) + (prefix + names[i]) + NewLine
  {
    var p := Prefixed(prefix, names[..i + 1]);
    assert p[..|p| - 1] == Prefixed(prefix, names[..i]);
  }

  /** Ordinal (code-point) lexicographic order on strings: a sorts at or before b. */
  predicate Below(a: string, b: string)
    decreases |a|
  {
    a == [] || (b != [] && (a[0] < b[0] || (a[0] == b[0] && Below(a[1..], b[1..]))))
  }

  lemma {:induction false} BelowTotal(a: string, b: string)
    ensures Below(a, b) || Below(b, a)
    decreases |a|
  {
    if a != [] && b != [] && a[0] == b[0] {
      BelowTotal(a[1..], b[1..]);
    }
  }

  lemma {:induction false} BelowTransitive(a: string, b: string, c: string)
    requires Below(a, b) && Below(b, c)
    ensures Below(a, c)
    decreases |a|
  {
    if a != [] && a[0] == b[0] && b[0] == c[0] {
      BelowTransitive(a[1..], b[1..], c[1..]);
    }
  }

  predicate SortedNames(s: seq<string>) {
    forall i, j :: 0 <= i < j < |s| ==> Below(s[i], s[j])
  }

  function InsertName(x: string, s: seq<string>): (r: seq<string>)
    ensures |r| == |s| + 1
  {
    if s == [] then [x]
    else if Below(x, s[0]) then [x] + s
    else [s[0]] + InsertName(x, s[1..])
  }

  lemma InsertNameCorrect(x: string, s: seq<string>)
    requires SortedNames(s)
    ensures SortedNames(InsertName(x, s))
    ensures multiset(InsertName(x, s)) == multiset(s) + multiset{x}
  {
    InsertNameSorted(x, s);
    InsertNamePermutes(x, s);
  }

  lemma {:induction false} InsertNameMembers(x: string, s: seq<string>)
    ensures forall y :: y in InsertName(x, s) <==> y == x || y in s
  {
    if s != [] && !Below(x, s[0]) {
      InsertNameMembers(x, s[1..]);
      assert s == [s[0]] + s[1..];
    }
  }

  lemma {:induction false} InsertNamePermutes(x: string, s: seq<string>)
    ensures multiset(InsertName(x, s)) == multiset(s) + multiset{x}
  {
    if s != [] && !Below(x, s[0]) {
      InsertNamePermutes(x, s[1..]);
      assert s == [s[0]] + s[1..];
    }
  }

  lemma {:induction false} InsertNameSorted(x: string, s: seq<string>)
    requires SortedNames(s)
    ensures SortedNames(InsertName(x, s))
  {
    if s == [] {
    } else if Below(x, s[0]) {
      forall j | 0 <= j < |s| ensures Below(x, s[j]) {
        if j > 0 {
          BelowTransitive(x, s[0], s[j]);
        }
      }
    } else {
      BelowTotal(x, s[0]);
      var tail := s[1..];
      InsertNameSorted(x, tail);
      InsertNameMembers(x, tail);
      var r' := InsertName(x, tail);
      forall k | 0 <= k < |r'| ensures Below(s[0], r'[k]) {
        assert r'[k] in r';
        if r'[k] != x {
          var j :| 0 <= j < |tail| && tail[j] == r'[k];
          assert s[j + 1] == r'[k];
        }
      }
    }
  }

  /** Enumerable.OrderBy(f => f) with the ordinal comparer: an insertion sort. */
  function SortNames(s: seq<string>): (r: seq<string>)
    ensures |r| == |s|
  {
    if s == [] then [] else InsertName(s[0], SortNames(s[1..]))
  }

  lemma {:induction false} SortNamesCorrect(s: seq<string>)
    ensures SortedNames(SortNames(s))
    ensures multiset(SortNames(s)) == multiset(s)
  {
    if s != [] {
      SortNamesCorrect(s[1..]);
      InsertNameCorrect(s[0], SortNames(s[1..]));
      assert s == [s[0]] + s[1..];
    }
  }

  /** Enumerable.Take(n). */
  function Take<T>(s: seq<T>, n: nat): seq<T> {
    if |s| <= n then s else s[..n]
  }

  /** In a sorted sequence everything before position k sorts at or before everything from k on. */
  lemma SortedSplit(t: seq<string>, k: nat)
    requires SortedNames(t) && k <= |t|
    ensures forall x, y :: x in t[..k] && y in t[k..] ==> Below(x, y)
  {
    forall x, y | x in t[..k] && y in t[k..] ensures Below(x, y) {
      var i :| 0 <= i < k && t[..k][i] == x;
      var j :| 0 <= j < |t| - k && t[k..][j] == y;
      assert t[i] == x && t[k + j] == y;
    }
  }

  /**
   * Sorting and then taking the first cap names yields min(|s|, cap) names, in order,
   * all of them from s, and every name that is left out sorts at or after every name
   * that is kept.
   */
  lemma FirstSortedNames(s: seq<string>, cap: nat)
    ensures var r := Take(SortNames(s), cap);
      && |r| == (if |s| <= cap then |s| else cap)
      && SortedNames(r)
      && multiset(r) <= multiset(s)
      && forall x, y :: x in r && y in multiset(s) - multiset(r) ==> Below(x, y)
  {
    SortNamesCorrect(s);
    var t := SortNames(s);
    var k := if |t| <= cap then |t| else cap;
    assert Take(t, cap) == t[..k];
    KeptBeforeDropped(t, k);
  }

  /** Of a sorted sequence, a prefix is sorted, and it sorts before what it leaves out. */
  lemma KeptBeforeDropped(t: seq<string>, k: nat)
    requires SortedNames(t) && k <= |t|
    ensures SortedNames(t[..k])
    ensures multiset(t[..k]) <= multiset(t)
    ensures forall x, y :: x in t[..k] && y in multiset(t) - multiset(t[..k]) ==> Below(x, y)
  {
    var rest := t[k..];
    assert t == t[..k] + rest;
    assert multiset(t) - multiset(t[..k]) == multiset(rest);
    SortedSplit(t, k);
  }
}
