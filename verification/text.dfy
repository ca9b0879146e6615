/** String helpers with the Python semantics the router relies on:
    `str.split()`, `str.lower()`, substring tests, `startswith`,
    `sep.join`, `str(int)` and `int(str)`. */
module Text {
  import opened Wrappers

  /** The characters Python's `str.isspace` accepts; `str.split()` with no
      argument splits on exactly these. */
  predicate IsSpace(c: char) {
    var n := c as int;
    (9 <= n <= 13) || (28 <= n <= 32) || n == 0x85 || n == 0xA0 || n == 0x1680
    || (0x2000 <= n <= 0x200A) || n == 0x2028 || n == 0x2029 || n == 0x202F
    || n == 0x205F || n == 0x3000
  }

  predicate NoSpace(s: string) {
    forall i :: 0 <= i < |s| ==> !IsSpace(s[i])
  }

  /** The suffix of `s` left after its leading whitespace. */
  function SkipSpace(s: string): (t: string)
    ensures |t| <= |s| && t == s[|s| - |t|..]
    ensures t == [] || !IsSpace(t[0])
  {
    if s == [] || !IsSpace(s[0]) then s else SkipSpace(s[1..])
  }

  /** The longest prefix of `s` free of whitespace. */
  function WordPrefix(s: string): (w: string)
    ensures |w| <= |s| && w == s[..|w|]
    ensures NoSpace(w)
    ensures |w| == |s| || IsSpace(s[|w|])
  {
    if s == [] || IsSpace(s[0]) then [] else [s[0]] + WordPrefix(s[1..])
  }

  /** A word as `str.split()` yields it: non-empty and free of whitespace. */
  predicate IsWord(w: string) {
    |w| > 0 && NoSpace(w)
  }

  /** Python's `s.split()`: the maximal runs of non-whitespace, in order. */
  function Words(s: string): (ws: seq<string>)
    ensures forall i :: 0 <= i < |ws| ==> IsWord(ws[i])
    decreases |s|
  {
    var t := SkipSpace(s);
    if t == [] then []
    else
      var w := WordPrefix(t);
      assert IsWord(w);
      var rest := Words(t[|w|..]);
      WordsCons(w, rest);
      [w] + rest
  }

  lemma WordsCons(w: string, rest: seq<string>)
    requires IsWord(w) && forall i :: 0 <= i < |rest| ==> IsWord(rest[i])
    ensures forall i :: 0 <= i < |[w] + rest| ==> IsWord(([w] + rest)[i])
  {
  }

  /** Independent reference count: the positions where a word begins, i.e. a
      non-space character that is first or follows a space. `afterSpace` says
      whether the character before `s` was a space (true at the start). */
  function WordStarts(s: string, afterSpace: bool): nat {
    if s == [] then 0
    else (if afterSpace && !IsSpace(s[0]) then 1 else 0) + WordStarts(s[1..], IsSpace(s[0]))
  }

  lemma {:induction false} WordStartsSkip(s: string)
    ensures WordStarts(s, true) == WordStarts(SkipSpace(s), true)
  {
    if s != [] && IsSpace(s[0]) {
      WordStartsSkip(s[1..]);
    }
  }

  lemma {:induction false} WordStartsWord(s: string)
    requires s != [] && !IsSpace(s[0])
    ensures WordStarts(s, true) == 1 + WordStarts(s[|WordPrefix(s)|..], true)
  {
    var w := WordPrefix(s);
    WordStartsInside(s[1..]);
  }

  /** Inside a word the count does not depend on the previous character until a space ends it. */
  lemma {:induction false} WordStartsInside(s: string)
    ensures WordStarts(s, false) == WordStarts(s[|WordPrefix(s)|..], true)
  {
    if s == [] {
    } else if IsSpace(s[0]) {
    } else {
      WordStartsInside(s[1..]);
    }
  }

  /** `len(s.split())` counts exactly the word beginnings. */
  lemma {:induction false} WordCountIsWordStarts(s: string)
    ensures |Words(s)| == WordStarts(s, true)
    decreases |s|
  {
    var t := SkipSpace(s);
    WordStartsSkip(s);
    if t != [] {
      var w := WordPrefix(t);
      WordStartsWord(t);
      WordCountIsWordStarts(t[|w|..]);
    }
  }

  /** Python's `str.lower()` restricted to ASCII letters. */
  function LowerChar(c: char): (d: char)
    ensures 'A' <= c <= 'Z' ==> 'a' <= d <= 'z' && d as int - c as int == 32
    ensures !('A' <= c <= 'Z') ==> d == c
  {
    if 'A' <= c <= 'Z' then (c as int + 32) as char else c
  }

  function Lower(s: string): (r: string)
    ensures |r| == |s|
    ensures forall i :: 0 <= i < |s| ==> r[i] == LowerChar(s[i])
  {
    if s == [] then [] else [LowerChar(s[0])] + Lower(s[1..])
  }

  /** Python's `sub in s`. */
  predicate Contains(s: string, sub: string) {
    exists i :: 0 <= i <= |s| - |sub| && OccursAt(s, sub, i)
  }

  /** `sub` occurs in `s` starting at index `i`. */
  predicate OccursAt(s: string, sub: string, i: int) {
    0 <= i <= |s| - |sub| && s[i..i + |sub|] == sub
  }

  /** Python's `s.startswith(p)`. */
  /** The characters `str.splitlines` breaks lines at. */
  predicate IsLineBreak(ch: char) {
    ch in {'\n', '\r', '\U{000B}', '\U{000C}', '\U{001C}', '\U{001D}', '\U{001E}', '\U{0085}', '\U{2028}', '\U{2029}'}
  }

  /** The first line break at or after `i`, or |s|. */
  function LineEnd(s: string, i: nat): (e: nat)
    requires i <= |s|
    ensures i <= e <= |s|
    ensures forall j :: i <= j < e ==> !IsLineBreak(s[j])
    ensures e < |s| ==> IsLineBreak(s[e])
    decreases |s| - i
  {
    if i == |s| || IsLineBreak(s[i]) then i else LineEnd(s, i + 1)
  }

  /** Where the line after the break at `e` starts: "\r\n" is one break. */
  function NextLine(s: string, e: nat): (n: nat)
    requires e < |s| && IsLineBreak(s[e])
    ensures e < n <= |s| && IsLineBreak(s[n - 1])
    ensures n == e + 1 || (n == e + 2 && s[e] == '\r' && s[e + 1] == '\n')
  {
    if s[e] == '\r' && e + 1 < |s| && s[e + 1] == '\n' then e + 2 else e + 1
  }

  /** Python's `s.splitlines()`: the lines without their breaks; a final
      break does not open an empty last line. */
  function SplitLines(s: string): seq<string>
    decreases |s|
  {
    if s == [] then []
    else
      var e := LineEnd(s, 0);
      if e == |s| then [s] else [s[..e]] + SplitLines(s[NextLine(s, e)..])
  }

  /** A text with a line break is its first line followed by the lines after the break. */
  lemma SplitLinesCons(s: string)
    requires LineEnd(s, 0) < |s|
    ensures SplitLines(s) == [s[..LineEnd(s, 0)]] + SplitLines(s[NextLine(s, LineEnd(s, 0))..])
  {
  }

  predicate StartsWith(s: string, p: string) {
    |p| <= |s| && s[..|p|] == p
  }

  lemma StartsWithAppend(p: string, q: string)
    ensures StartsWith(p + q, p)
  {
    assert (p + q)[..|p|] == p;
  }

  /** Python's `s[:n]` for `n >= 0`. */
  function Take<T>(s: seq<T>, n: nat): (r: seq<T>)
    ensures |r| == if n < |s| then n else |s|
    ensures r == s[..|r|]
  {
    if n < |s| then s[..n] else s
  }

  /** Python's `sep.join(xs)`. */
  function Join(xs: seq<string>, sep: string): string {
    if |xs| == 0 then ""
    else if |xs| == 1 then xs[0]
    else xs[0] + sep + Join(xs[1..], sep)
  }

  /** Appending one more part adds one separator and the part. */
  lemma {:induction false} JoinSnoc(xs: seq<string>, x: string, sep: string)
    requires |xs| > 0
    ensures Join(xs + [x], sep) == Join(xs, sep) + sep + x
  {
    if |xs| == 1 {
      assert xs + [x] == [xs[0], x];
    } else {
      assert (xs + [x])[1..] == xs[1..] + [x];
      JoinSnoc(xs[1..], x, sep);
    }
  }

  lemma ContainsSelf(s: string)
    ensures Contains(s, s)
  {
    assert OccursAt(s, s, 0);
  }

  /** An occurrence survives adding text on either side. */
  lemma ContainsWithin(pre: string, s: string, post: string, sub: string)
    requires Contains(s, sub)
    ensures Contains(pre + s + post, sub)
  {
    var i :| 0 <= i <= |s| - |sub| && OccursAt(s, sub, i);
    assert (pre + s + post)[|pre| + i..|pre| + i + |sub|] == s[i..i + |sub|];
    assert OccursAt(pre + s + post, sub, |pre| + i);
  }

  lemma ContainsLeft(s: string, t: string, sub: string)
    requires Contains(s, sub)
    ensures Contains(s + t, sub)
  {
    var i :| 0 <= i <= |s| - |sub| && OccursAt(s, sub, i);
    assert (s + t)[i..i + |sub|] == s[i..i + |sub|];
    assert OccursAt(s + t, sub, i);
  }

  lemma ContainsRight(s: string, t: string, sub: string)
    requires Contains(t, sub)
    ensures Contains(s + t, sub)
  {
    var i :| 0 <= i <= |t| - |sub| && OccursAt(t, sub, i);
    assert (s + t)[|s| + i..|s| + i + |sub|] == t[i..i + |sub|];
    assert OccursAt(s + t, sub, |s| + i);
  }

  /** Every part occurs in the joined string. */
  lemma {:induction false} JoinContains(xs: seq<string>, sep: string, k: nat)
    requires k < |xs|
    ensures Contains(Join(xs, sep), xs[k])
  {
    if |xs| == 1 {
      ContainsSelf(xs[0]);
    } else if k == 0 {
      ContainsSelf(xs[0]);
      ContainsLeft(xs[0], sep + Join(xs[1..], sep), xs[0]);
      assert xs[0] + (sep + Join(xs[1..], sep)) == Join(xs, sep);
    } else {
      JoinContains(xs[1..], sep, k - 1);
      ContainsRight(xs[0] + sep, Join(xs[1..], sep), xs[k]);
    }
  }

  function DigitChar(d: nat): (c: char)
    requires d < 10
    ensures '0' <= c <= '9'
  {
    ('0' as int + d) as char
  }

  predicate IsDigit(c: char) {
    '0' <= c <= '9'
  }

  /** Python's `str(n)` for a natural number. */
  function NatToString(n: nat): (s: string)
    ensures |s| > 0
    ensures forall i :: 0 <= i < |s| ==> IsDigit(s[i])
    ensures |s| > 1 ==> s[0] != '0'
  {
    if n < 10 then [DigitChar(n)] else NatToString(n / 10) + [DigitChar(n % 10)]
  }

  /** Python's `str(i)` for any integer. */
  function IntToString(i: int): string {
    if i < 0 then "-" + NatToString(-i) else NatToString(i)
  }

  /** The value of a string of ASCII digits. */
  function DigitsValue(s: string): nat
    requires forall i :: 0 <= i < |s| ==> IsDigit(s[i])
  {
    if s == [] then 0
    else
      assert IsDigit(s[|s| - 1]);
      DigitsValue(s[..|s| - 1]) * 10 + (s[|s| - 1] as int - '0' as int)
  }

  function StripSpace(s: string): string {
    var t := SkipSpace(s);
    TrimEnd(t)
  }

  function TrimEnd(s: string): (t: string)
    ensures |t| <= |s| && t == s[..|t|]
  {
    if s != [] && IsSpace(s[|s| - 1]) then TrimEnd(s[..|s| - 1]) else s
  }

  /** Python's `int(s)` on a string, for the form an optional sign followed
      by ASCII digits, single underscores allowed between digits, surrounded
      by optional whitespace. */
  function ParseInt(s: string): Option<int> {
    ParseSigned(StripSpace(s))
  }

  /** An optional sign followed by a digit run. */
  function ParseSigned(t: string): Option<int> {
    if t == [] then None
    else if t[0] == '-' then
      match ParseDigitRun(t[1..])
      case Some(v) => Some(-v)
      case None => None
    else if t[0] == '+' then ParseDigitRun(t[1..])
    else ParseDigitRun(t)
  }

  /** The value of a digit run with single underscores between digits; None for anything else. */
  function ParseDigitRun(d: string): Option<int> {
    if GroupedDigits(d) then Some(DigitsValue(DropUnderscores(d)) as int) else None
  }

  /** Digits, where an underscore may stand between two digits. */
  predicate GroupedDigits(d: string) {
    && d != [] && IsDigit(d[0]) && IsDigit(d[|d| - 1])
    && (forall i :: 0 <= i < |d| ==> IsDigit(d[i]) || d[i] == '_')
    && (forall i :: 0 <= i < |d| - 1 ==> d[i] == '_' ==> IsDigit(d[i + 1]))
  }

  /** The digits of a grouped run. */
  function DropUnderscores(d: string): (r: string)
    requires forall i :: 0 <= i < |d| ==> IsDigit(d[i]) || d[i] == '_'
    ensures forall i :: 0 <= i < |r| ==> IsDigit(r[i])
    ensures (forall i :: 0 <= i < |d| ==> IsDigit(d[i])) ==> r == d
  {
    if d == [] then [] else (if d[0] == '_' then [] else [d[0]]) + DropUnderscores(d[1..])
  }

  /** `int()` reads "1_000" as 1000. */
  lemma ParseIntGrouped()
    ensures ParseInt("1_000") == Some(1000)
  {
    ParseIntOfRun("1_000");
    GroupedThousand();
  }

  /** Text with no sign and no surrounding space is read as one digit run. */
  lemma ParseIntOfRun(d: string)
    requires d != [] && d[0] != '-' && d[0] != '+'
    requires !IsSpace(d[0]) && !IsSpace(d[|d| - 1])
    ensures ParseInt(d) == ParseDigitRun(d)
  {
    StripNoSpace(d);
  }

  lemma GroupedThousand()
    ensures ParseDigitRun("1_000") == Some(1000)
  {
    ThousandIsGrouped();
    ThousandDropsUnderscore();
    ThousandValue();
  }

  lemma ThousandIsGrouped()
    ensures GroupedDigits("1_000")
  {
  }

  lemma ThousandDropsUnderscore()
    requires GroupedDigits("1_000")
    ensures DropUnderscores("1_000") == "1000"
  {
    var z := "000";
    assert "1_000" == ['1'] + (['_'] + z) && "1000" == ['1'] + z;
    DropCons('_', z);
    DropCons('1', ['_'] + z);
  }

  /** Dropping underscores goes character by character. */
  lemma DropCons(c: char, d: string)
    requires IsDigit(c) || c == '_'
    requires forall i :: 0 <= i < |d| ==> IsDigit(d[i]) || d[i] == '_'
    ensures DropUnderscores([c] + d) == (if c == '_' then [] else [c]) + DropUnderscores(d)
  {
    assert ([c] + d)[1..] == d;
  }

  lemma ThousandValue()
    ensures DigitsValue("1000") == 1000
  {
    assert "1000"[..3] == "100" && "100"[..2] == "10" && "10"[..1] == "1";
  }

  /** `int()` refuses a doubled, leading or trailing underscore. */
  lemma ParseIntStrayUnderscore()
    ensures ParseInt("1__0") == None
    ensures ParseInt("_1") == None
    ensures ParseInt("1_") == None
  {
    DoubledUnderscore();
    LeadingUnderscore();
    TrailingUnderscore();
  }

  lemma DoubledUnderscore()
    ensures ParseInt("1__0") == None
  {
    ParseIntOfRun("1__0");
    assert !GroupedDigits("1__0") by { assert "1__0"[1] == '_' && "1__0"[2] == '_'; }
  }

  lemma LeadingUnderscore()
    ensures ParseInt("_1") == None
  {
    ParseIntOfRun("_1");
    assert !GroupedDigits("_1");
  }

  lemma TrailingUnderscore()
    ensures ParseInt("1_") == None
  {
    ParseIntOfRun("1_");
    assert !GroupedDigits("1_");
  }

  lemma {:induction false} DigitsValueOfNat(n: nat)
    ensures DigitsValue(NatToString(n)) == n
  {
    if n >= 10 {
      var s := NatToString(n);
      assert s[..|s| - 1] == NatToString(n / 10);
      DigitsValueOfNat(n / 10);
    }
  }

  /** Digits carry no whitespace to strip. */
  lemma StripNoSpace(s: string)
    requires s != [] && !IsSpace(s[0]) && !IsSpace(s[|s| - 1])
    ensures StripSpace(s) == s
  {
    assert SkipSpace(s) == s;
  }

  lemma ParseDigits(d: string)
    requires d != [] && forall k :: 0 <= k < |d| ==> IsDigit(d[k])
    ensures ParseSigned(d) == Some(DigitsValue(d) as int)
  {
    assert IsDigit(d[0]) && d[0] != '-' && d[0] != '+';
    ParseDigitsRun(d);
  }

  lemma ParseNegative(d: string)
    requires d != [] && forall k :: 0 <= k < |d| ==> IsDigit(d[k])
    ensures ParseSigned("-" + d) == Some(-(DigitsValue(d) as int))
  {
    var s := "-" + d;
    assert s != [] && s[0] == '-' && s[1..] == d;
    ParseDigitsRun(d);
    assert ParseDigitRun(s[1..]) == Some(DigitsValue(d) as int);
  }

  lemma ParseDigitsRun(d: string)
    requires d != [] && forall k :: 0 <= k < |d| ==> IsDigit(d[k])
    ensures ParseDigitRun(d) == Some(DigitsValue(d) as int)
  {
  }

  /** `int(str(i)) == i`. */
  lemma {:induction false} ParseIntOfIntToString(i: int)
    ensures ParseInt(IntToString(i)) == Some(i)
  {
    var n: nat := if i < 0 then -i else i;
    var d := NatToString(n);
    DigitsValueOfNat(n);
    assert IsDigit(d[0]) && IsDigit(d[|d| - 1]);
    if i < 0 {
      var s := "-" + d;
      assert s[|s| - 1] == d[|d| - 1];
      StripNoSpace(s);
      ParseNegative(d);
    } else {
      StripNoSpace(d);
      ParseDigits(d);
    }
  }
}
