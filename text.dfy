/** The Kotlin standard-library string operations the client relies on, on
    `string` (a sequence of Unicode scalar values): `trim`, `isBlank`,
    `indexOf`/`contains`/`substringAfter`, `split` on one character, `lines`,
    `take`, `toIntOrNull` and the decimal rendering of an `Int`. */
module Text {
  import opened Wrappers

  const MinInt: int := -0x8000_0000
  const MaxInt: int := 0x7FFF_FFFF

  /** Kotlin's `Char.isWhitespace()`: Java whitespace (tab, line feed, vertical
      tab, form feed, carriage return, the four information separators) plus
      every Unicode space, line and paragraph separator. */
  predicate IsWhitespace(c: char) {
    if c <= ' ' then ('\t' <= c <= '\r') || '\U{1C}' <= c
    else '\U{A0}' <= c && IsWideWhitespace(c)
  }

  /** The space characters above U+0080: no-break space, Ogham space mark,
      the U+2000..U+200A spaces, line and paragraph separators, narrow
      no-break space, medium mathematical space, ideographic space. */
  predicate IsWideWhitespace(c: char) {
    || c == '\U{A0}' || c == '\U{1680}' || ('\U{2000}' <= c <= '\U{200A}')
    || c == '\U{2028}' || c == '\U{2029}' || c == '\U{202F}' || c == '\U{205F}' || c == '\U{3000}'
  }

  /** `CharSequence.isBlank()`: empty or whitespace only. */
  predicate IsBlank(s: string) {
    forall i :: 0 <= i < |s| ==> IsWhitespace(s[i])
  }

  /** The number of leading whitespace characters from index `i` on. */
  function LeadingSpace(s: string, i: nat): (n: nat)
    requires i <= |s|
    ensures i + n <= |s|
    ensures forall k :: i <= k < i + n ==> IsWhitespace(s[k])
    ensures i + n == |s| || !IsWhitespace(s[i + n])
    decreases |s| - i
  {
    if i < |s| && IsWhitespace(s[i]) then 1 + LeadingSpace(s, i + 1) else 0
  }

  /** The number of trailing whitespace characters before index `j`. */
  function TrailingSpace(s: string, j: nat): (n: nat)
    requires j <= |s|
    ensures n <= j
    ensures forall k :: j - n <= k < j ==> IsWhitespace(s[k])
    ensures n == j || !IsWhitespace(s[j - n - 1])
  {
    if 0 < j && IsWhitespace(s[j - 1]) then 1 + TrailingSpace(s, j - 1) else 0
  }

  /** `String.trim()`. */
  function Trim(s: string): (r: string)
    ensures |r| <= |s|
    ensures r == [] <==> IsBlank(s)
    ensures r != [] ==> !IsWhitespace(r[0]) && !IsWhitespace(r[|r| - 1])
  {
    var a := LeadingSpace(s, 0);
    if a == |s| then []
    else
      var b := |s| - TrailingSpace(s, |s|);
      assert !IsWhitespace(s[a]);
      s[a..b]
  }

  /** Trimming keeps a string that neither starts nor ends with whitespace. */
  lemma TrimKeeps(s: string)
    requires s != [] ==> !IsWhitespace(s[0]) && !IsWhitespace(s[|s| - 1])
    ensures Trim(s) == s
  {
  }

  /** Trimming drops one leading whitespace character before a trimmed
      string. */
  lemma TrimLeadingSpace(c: char, s: string)
    requires IsWhitespace(c) && s != [] && !IsWhitespace(s[0]) && !IsWhitespace(s[|s| - 1])
    ensures Trim([c] + s) == s
  {
    var t := [c] + s;
    assert t[1] == s[0];
    assert LeadingSpace(t, 1) == 0;
    assert t[|t| - 1] == s[|s| - 1];
    assert TrailingSpace(t, |t|) == 0;
    assert t[1..|t|] == s;
  }

  /** Trimming drops one trailing whitespace character after a trimmed
      string. */
  lemma TrimTrailingSpace(s: string, c: char)
    requires IsWhitespace(c) && s != [] && !IsWhitespace(s[0]) && !IsWhitespace(s[|s| - 1])
    ensures Trim(s + [c]) == s
  {
    var t := s + [c];
    assert t[0] == s[0];
    assert LeadingSpace(t, 0) == 0;
    assert t[|s| - 1] == s[|s| - 1];
    assert TrailingSpace(t, |s|) == 0;
    assert TrailingSpace(t, |t|) == 1;
    assert t[0..|s|] == s;
  }

  /** Trimming drops whitespace on both sides of a trimmed string, and
      nothing else. */
  lemma TrimAround(a: string, m: string, b: string)
    requires IsBlank(a) && IsBlank(b)
    requires m != [] && !IsWhitespace(m[0]) && !IsWhitespace(m[|m| - 1])
    ensures Trim(a + m + b) == m
  {
    var s := a + m + b;
    assert s[|a|] == m[0];
    assert forall k :: 0 <= k < |a| ==> s[k] == a[k];
    assert LeadingSpace(s, 0) == |a|;
    assert s[|a| + |m| - 1] == m[|m| - 1];
    assert forall k :: |a| + |m| <= k < |s| ==> s[k] == b[k - |a| - |m|];
    assert TrailingSpace(s, |s|) == |b|;
    assert s[|a|..|a| + |m|] == m;
  }

  /** `p` occurs in `s` at index `i`. */
  predicate OccursAt(s: string, p: string, i: nat) {
    i + |p| <= |s| && s[i..i + |p|] == p
  }

  /** The first occurrence of `p` in `s` at or after `i`. */
  function IndexOfFrom(s: string, p: string, i: nat): (r: Option<nat>)
    requires i <= |s|
    decreases |s| - i
    ensures r.Some? ==> i <= r.value && OccursAt(s, p, r.value)
    ensures r.Some? ==> forall j :: i <= j < r.value ==> !OccursAt(s, p, j)
    ensures r.None? ==> forall j :: i <= j ==> !OccursAt(s, p, j)
  {
    if OccursAt(s, p, i) then Some(i)
    else if i == |s| then None
    else IndexOfFrom(s, p, i + 1)
  }

  /** `String.indexOf(p)`, with -1 as None. */
  function IndexOf(s: string, p: string): Option<nat> {
    IndexOfFrom(s, p, 0)
  }

  /** `String.contains(p)`. */
  predicate Contains(s: string, p: string) {
    IndexOf(s, p).Some?
  }

  lemma ContainsIff(s: string, p: string)
    ensures Contains(s, p) <==> exists j :: OccursAt(s, p, j)
  {
  }

  /** `String.substringAfter(d)`: the text after the first `d`, or all of `s`
      when `d` does not occur. */
  function SubstringAfter(s: string, d: string): (r: string)
    ensures IndexOf(s, d).None? ==> r == s
  {
    match IndexOf(s, d)
    case None => s
    case Some(i) => s[i + |d|..]
  }

  /** When `d` occurs, `s` is the text before its first occurrence, `d`,
      and the text after it. */
  lemma SubstringAfterSplits(s: string, d: string)
    requires IndexOf(s, d).Some?
    ensures s == s[..IndexOf(s, d).value] + d + SubstringAfter(s, d)
  {
    var i := IndexOf(s, d).value;
    assert s[i..i + |d|] == d;
    assert s == s[..i] + s[i..i + |d|] + s[i + |d|..];
  }

  /** The text after a leading occurrence of `p` is what follows it. */
  lemma SubstringAfterPrefix(p: string, rest: string)
    ensures SubstringAfter(p + rest, p) == rest
  {
    assert (p + rest)[0..|p|] == p;
    assert OccursAt(p + rest, p, 0);
    assert (p + rest)[|p|..] == rest;
  }

  /** `String.take(n)`. */
  function Take(s: string, n: nat): (r: string)
    ensures |r| == if n < |s| then n else |s|
    ensures r <= s
  {
    if n < |s| then s[..n] else s
  }

  /** The index of the first `c` in `s`. */
  function FirstIndex(s: string, c: char): (i: nat)
    requires c in s
    ensures i < |s| && s[i] == c && c !in s[..i]
  {
    if s[0] == c then 0 else FirstIndex(s[1..], c) + 1
  }

  /** `String.split(c)` with one single-character delimiter and no limit:
      every piece, empty ones included. */
  function Split(s: string, c: char): (parts: seq<string>)
    ensures |parts| >= 1
    ensures forall k :: 0 <= k < |parts| ==> c !in parts[k]
    decreases |s|
  {
    if c !in s then [s]
    else
      var i := FirstIndex(s, c);
      [s[..i]] + Split(s[i + 1..], c)
  }

  /** Glues the pieces back together with `c` between them. */
  function Join(parts: seq<string>, c: char): string
    requires |parts| >= 1
  {
    if |parts| == 1 then parts[0] else parts[0] + [c] + Join(parts[1..], c)
  }

  /** Splitting and joining are inverse: joining the pieces gives the input
      back, and splitting a join of delimiter-free pieces gives the pieces. */
  lemma {:induction false} JoinSplit(s: string, c: char)
    ensures Join(Split(s, c), c) == s
    decreases |s|
  {
    if c in s {
      var i := FirstIndex(s, c);
      var tail := Split(s[i + 1..], c);
      var parts := Split(s, c);
      assert parts == [s[..i]] + tail;
      assert parts[0] == s[..i] && parts[1..] == tail && |parts| > 1;
      JoinSplit(s[i + 1..], c);
      assert Join(parts, c) == s[..i] + [c] + s[i + 1..];
      assert s == s[..i] + [c] + s[i + 1..];
    }
  }

  /** The first `c` in `a + [c] + b`, when `a` has none, is right after `a`. */
  lemma {:induction false} FirstIndexAfter(a: string, c: char, b: string)
    requires c !in a
    ensures c in a + [c] + b && FirstIndex(a + [c] + b, c) == |a|
  {
    var s := a + [c] + b;
    assert s[|a|] == c;
  }

  /** Splitting `a + [c] + b`, when `a` has no `c`, yields `a` and then the
      pieces of `b`. */
  lemma SplitAt(a: string, c: char, b: string)
    requires c !in a
    ensures Split(a + [c] + b, c) == [a] + Split(b, c)
  {
    var s := a + [c] + b;
    FirstIndexAfter(a, c, b);
    assert s[..|a|] == a;
    assert s[|a| + 1..] == b;
  }

  lemma {:induction false} SplitJoin(parts: seq<string>, c: char)
    requires |parts| >= 1
    requires forall k :: 0 <= k < |parts| ==> c !in parts[k]
    ensures Split(Join(parts, c), c) == parts
    decreases |parts|
  {
    if |parts| > 1 {
      var rest := Join(parts[1..], c);
      assert Join(parts, c) == parts[0] + [c] + rest;
      assert c !in parts[0];
      SplitAt(parts[0], c, rest);
      SplitJoin(parts[1..], c);
      assert [parts[0]] + parts[1..] == parts;
    }
  }

  predicate IsLineBreak(c: char) {
    c == '\n' || c == '\r'
  }

  /** The index of the first line-break character. */
  function LineBreakIndex(s: string): (r: Option<nat>)
    ensures r.Some? ==> r.value < |s| && IsLineBreak(s[r.value])
    ensures r.Some? ==> forall j :: 0 <= j < r.value ==> !IsLineBreak(s[j])
    ensures r.None? ==> forall j :: 0 <= j < |s| ==> !IsLineBreak(s[j])
  {
    if s == [] then None
    else if IsLineBreak(s[0]) then Some(0)
    else match LineBreakIndex(s[1..])
      case None => None
      case Some(i) => Some(i + 1)
  }

  /** `CharSequence.lines()`: splits on "\r\n", "\n" and "\r". */
  function Lines(s: string): (ls: seq<string>)
    ensures |ls| >= 1
    ensures forall k, j :: 0 <= k < |ls| && 0 <= j < |ls[k]| ==> !IsLineBreak(ls[k][j])
    decreases |s|
  {
    match LineBreakIndex(s)
    case None => [s]
    case Some(i) =>
      if s[i] == '\r' && i + 1 < |s| && s[i + 1] == '\n' then [s[..i]] + Lines(s[i + 2..])
      else [s[..i]] + Lines(s[i + 1..])
  }

  /** On text with no carriage return, `lines()` is `split('\n')`. */
  lemma {:induction false} LinesWithoutCr(s: string)
    requires '\r' !in s
    ensures Lines(s) == Split(s, '\n')
    decreases |s|
  {
    match LineBreakIndex(s)
    case None =>
    case Some(i) =>
      assert s[i] == '\n';
      assert FirstIndex(s, '\n') == i;
      LinesWithoutCr(s[i + 1..]);
  }

  predicate IsDigit(c: char) {
    '0' <= c <= '9'
  }

  predicate AllDigits(s: string) {
    forall i :: 0 <= i < |s| ==> IsDigit(s[i])
  }

  /** The value of a string of decimal digits. */
  function DigitsValue(s: string): nat
    requires AllDigits(s)
  {
    if s == [] then 0 else DigitsValue(s[..|s| - 1]) * 10 + (s[|s| - 1] as int - '0' as int)
  }

  /** `String.toIntOrNull()`: an optional sign, at least one decimal digit,
      and a value that fits a 32-bit `Int`. */
  function ToIntOrNull(s: string): (r: Option<int>)
    ensures r.Some? ==> MinInt <= r.value <= MaxInt
    ensures r.Some? ==> s != [] && (s[0] == '-' || s[0] == '+' || IsDigit(s[0]))
  {
    if s == [] then None
    else
      var negative := s[0] == '-';
      var digits := if s[0] == '-' || s[0] == '+' then s[1..] else s;
      if digits == [] || !AllDigits(digits) then None
      else
        var v: int := if negative then -(DigitsValue(digits) as int) else DigitsValue(digits);
        if MinInt <= v <= MaxInt then Some(v) else None
  }

  function DigitChar(d: nat): (c: char)
    requires d < 10
    ensures IsDigit(c) && c as int - '0' as int == d
  {
    ('0' as int + d) as char
  }

  /** The decimal rendering of a natural number, without leading zeros. */
  function NatToString(n: nat): (s: string)
    ensures s != [] && AllDigits(s)
    ensures |s| > 1 ==> s[0] != '0'
  {
    if n < 10 then [DigitChar(n)] else NatToString(n / 10) + [DigitChar(n % 10)]
  }

  /** Kotlin's rendering of an `Int` in a string template. */
  function IntToString(i: int): string {
    if i < 0 then "-" + NatToString(-i) else NatToString(i)
  }

  lemma {:induction false} DigitsValueOfNatToString(n: nat)
    ensures DigitsValue(NatToString(n)) == n
  {
    if n >= 10 {
      DigitsValueOfNatToString(n / 10);
      var s := NatToString(n);
      assert s[..|s| - 1] == NatToString(n / 10);
    }
  }

  /** `toIntOrNull` reads back every rendered `Int`. */
  lemma IntToStringRoundTrip(i: int)
    requires MinInt <= i <= MaxInt
    ensures ToIntOrNull(IntToString(i)) == Some(i)
  {
    if i < 0 {
      var d := NatToString(-i);
      var s := IntToString(i);
      assert s == "-" + d;
      assert s[0] == '-' && s[1..] == d;
      DigitsValueOfNatToString(-i);
      assert DigitsValue(d) == -i;
    } else {
      var d := NatToString(i);
      assert IntToString(i) == d && IsDigit(d[0]);
      DigitsValueOfNatToString(i);
      assert DigitsValue(d) == i;
    }
  }
}
