/**
 * The handful of Python string operations the core relies on: prefix tests,
 * `rstrip`/`lstrip` of one character, `str.split()` word splitting (used for
 * token accounting) and decimal rendering of integers (f-strings).
 */
module Strings {

  predicate StartsWith(s: string, prefix: string) {
    |prefix| <= |s| && s[..|prefix|] == prefix
  }

  /** `s.rstrip(c)`: every trailing occurrence of `c` is removed, nothing else. */
  function RStrip(s: string, c: char): (r: string)
    ensures |r| <= |s| && r == s[..|r|]
    ensures r == [] || r[|r| - 1] != c
    ensures forall i :: |r| <= i < |s| ==> s[i] == c
    decreases |s|
  {
    if |s| > 0 && s[|s| - 1] == c then RStrip(s[..|s| - 1], c) else s
  }

  /** `s.lstrip(c)`: every leading occurrence of `c` is removed, nothing else. */
  function LStrip(s: string, c: char): (r: string)
    ensures |r| <= |s| && r == s[|s| - |r|..]
    ensures r == [] || r[0] != c
    ensures forall i :: 0 <= i < |s| - |r| ==> s[i] == c
    decreases |s|
  {
    if |s| > 0 && s[0] == c then LStrip(s[1..], c) else s
  }

  /** The characters Python's `str.split()` treats as separators (`str.isspace`). */
  predicate IsSpace(c: char) {
    c == ' ' || ('\t' <= c <= '\r') || ('\U{1C}' <= c <= '\U{1F}') || c == '\U{85}' || c == '\U{A0}'
    || c == '\U{1680}' || ('\U{2000}' <= c <= '\U{200A}') || c == '\U{2028}' || c == '\U{2029}'
    || c == '\U{202F}' || c == '\U{205F}' || c == '\U{3000}'
  }

  predicate NoSpace(s: string) {
    forall i :: 0 <= i < |s| ==> !IsSpace(s[i])
  }

  /** Leading whitespace removed. */
  function DropSpaces(s: string): (r: string)
    ensures |r| <= |s| && r == s[|s| - |r|..]
    ensures r == [] || !IsSpace(r[0])
    ensures forall i :: 0 <= i < |s| - |r| ==> IsSpace(s[i])
    decreases |s|
  {
    if |s| > 0 && IsSpace(s[0]) then DropSpaces(s[1..]) else s
  }

  /** The longest prefix of `s` without whitespace. */
  function WordPrefix(s: string): (w: string)
    ensures |w| <= |s| && w == s[..|w|]
    ensures NoSpace(w)
    ensures |w| == |s| || IsSpace(s[|w|])
    ensures |s| > 0 && !IsSpace(s[0]) ==> |w| > 0
    decreases |s|
  {
    if |s| > 0 && !IsSpace(s[0]) then [s[0]] + WordPrefix(s[1..]) else []
  }

  /** `s.split()`: the maximal runs of non-whitespace characters, in order. */
  function Words(s: string): (ws: seq<string>)
    decreases |s|
  {
    var t := DropSpaces(s);
    if t == [] then [] else
      var w := WordPrefix(t);
      assert |w| > 0;
      [w] + Words(t[|w|..])
  }

  predicate IsWord(w: string) {
    |w| > 0 && NoSpace(w)
  }

  /** Every word is non-empty and holds no whitespace. */
  lemma {:induction false} WordsAreWords(s: string)
    ensures forall i :: 0 <= i < |Words(s)| ==> IsWord(Words(s)[i])
    decreases |s|
  {
    var t := DropSpaces(s);
    if t != [] {
      var w := WordPrefix(t);
      WordsAreWords(t[|w|..]);
      WordsCons(w, Words(t[|w|..]));
    }
  }

  lemma WordsCons(w: string, rest: seq<string>)
    requires IsWord(w)
    requires forall i :: 0 <= i < |rest| ==> IsWord(rest[i])
    ensures forall i :: 0 <= i < |[w] + rest| ==> IsWord(([w] + rest)[i])
  {
  }

  /** `len(s.split())`, the token measure of the dummy provider servers. */
  function WordCount(s: string): nat {
    |Words(s)|
  }

  /**
   * Reference definition of the word count: the number of positions holding a
   * non-whitespace character that is first in `s` or follows whitespace.
   * `afterSpace` says whether the position before `s` counts as whitespace.
   */
  function WordStarts(s: string, afterSpace: bool): nat
    decreases |s|
  {
    if s == [] then 0
    else (if afterSpace && !IsSpace(s[0]) then 1 else 0) + WordStarts(s[1..], IsSpace(s[0]))
  }

  lemma {:induction false} WordStartsSkipSpaces(s: string, b: bool)
    ensures WordStarts(s, true) == WordStarts(DropSpaces(s), true)
    decreases |s|
  {
    if |s| > 0 && IsSpace(s[0]) {
      WordStartsSkipSpaces(s[1..], b);
    }
  }

  lemma {:induction false} WordStartsInsideWord(s: string, k: nat)
    requires k <= |s|
    requires NoSpace(s[..k])
    requires 0 < k
    ensures WordStarts(s, false) == WordStarts(s[k..], false)
    decreases k
  {
    if k > 1 {
      assert s[1..][..k - 1] == s[1..k];
      WordStartsInsideWord(s[1..], k - 1);
      assert s[1..][k - 1..] == s[k..];
    }
  }

  /** Splitting agrees with the reference count: `len(s.split())` counts word starts. */
  lemma {:induction false} WordCountIsWordStarts(s: string)
    ensures WordCount(s) == WordStarts(s, true)
    decreases |s|
  {
    var t := DropSpaces(s);
    WordStartsSkipSpaces(s, true);
    if t != [] {
      var w := WordPrefix(t);
      FirstWordStarts(t);
      WordCountIsWordStarts(t[|w|..]);
    }
  }

  /** A text that starts with a word has one word start in it, then those after it. */
  lemma FirstWordStarts(t: string)
    requires t != [] && !IsSpace(t[0])
    ensures WordStarts(t, true) == 1 + WordStarts(t[|WordPrefix(t)|..], true)
  {
    var w := WordPrefix(t);
    var rest := t[|w|..];
    assert WordStarts(t, true) == 1 + WordStarts(t[1..], false);
    if |w| > 1 {
      assert t[1..][..|w| - 1] == w[1..];
      WordStartsInsideWord(t[1..], |w| - 1);
      assert t[1..][|w| - 1..] == rest;
    } else {
      assert t[1..] == rest;
    }
    if rest != [] {
      assert IsSpace(rest[0]);
      assert WordStarts(rest, false) == WordStarts(rest, true);
    }
  }

  /** Words are separated by whitespace: appending a separator and more text adds their words. */
  lemma {:induction false} WordCountAppend(a: string, b: string)
    ensures WordStarts(a + " " + b, true) == WordStarts(a, true) + WordStarts(b, true)
  {
    assert a + " " + b == a + (" " + b);
    WordStartsAppend(a, " " + b, true);
    assert (" " + b)[1..] == b;
    assert WordStarts(" " + b, true) == WordStarts(b, true);
  }

  lemma {:induction false} WordStartsAppend(a: string, b: string, after: bool)
    requires b != [] && IsSpace(b[0])
    ensures WordStarts(a + b, after) == WordStarts(a, after) + WordStarts(b, true)
    decreases |a|
  {
    if a == [] {
      assert a + b == b;
    } else {
      assert (a + b)[1..] == a[1..] + b;
      WordStartsAppend(a[1..], b, IsSpace(a[0]));
    }
  }

  function Digit(d: nat): (c: char)
    requires d < 10
    ensures '0' <= c <= '9'
  {
    ('0' as int + d) as char
  }

  predicate IsDigit(c: char) {
    '0' <= c <= '9'
  }

  predicate AllDigits(s: string) {
    forall i :: 0 <= i < |s| ==> IsDigit(s[i])
  }

  /** Decimal rendering of a natural number, as `str(n)`. */
  function NatToString(n: nat): (r: string)
    ensures |r| > 0
  {
    if n < 10 then [Digit(n)] else NatToString(n / 10) + [Digit(n % 10)]
  }

  /** The rendering is all digits, with no leading zero. */
  lemma {:induction false} NatToStringDigits(n: nat)
    ensures AllDigits(NatToString(n))
    ensures |NatToString(n)| > 1 ==> NatToString(n)[0] != '0'
  {
    if n >= 10 {
      NatToStringDigits(n / 10);
    }
  }

  /** Decimal rendering of an integer, as `str(i)` / an f-string. */
  function IntToString(i: int): (r: string)
    ensures |r| > 0
  {
    if i < 0 then "-" + NatToString(-i) else NatToString(i)
  }

  /** The rendering starts with a minus sign exactly for a negative number. */
  lemma IntToStringSign(i: int)
    ensures i < 0 <==> IntToString(i)[0] == '-'
  {
    if i >= 0 {
      NatToStringDigits(i);
    }
  }

  /** The value of a string of decimal digits, as `int(s)`. */
  function DigitsValue(s: string): nat
    requires AllDigits(s)
  {
    if s == [] then 0 else DigitsValue(s[..|s| - 1]) * 10 + (s[|s| - 1] as int - '0' as int)
  }

  lemma {:induction false} DigitsValueOfNat(n: nat)
    ensures AllDigits(NatToString(n)) && DigitsValue(NatToString(n)) == n
  {
    NatToStringDigits(n);
    if n >= 10 {
      var r := NatToString(n);
      assert r[..|r| - 1] == NatToString(n / 10);
      DigitsValueOfNat(n / 10);
    }
  }

  /** Distinct naturals render to distinct digit strings. */
  lemma NatToStringInjective(a: nat, b: nat)
    requires NatToString(a) == NatToString(b)
    ensures a == b
  {
    DigitsValueOfNat(a);
    DigitsValueOfNat(b);
  }

  /** A negative number is rendered as a minus sign and its magnitude. */
  lemma NegativeText(i: int)
    requires i < 0
    ensures IntToString(i) == ['-'] + NatToString(-i)
  {
  }

  lemma NegativeInjective(i: int, j: int)
    requires i < 0 && IntToString(i) == IntToString(j)
    ensures i == j
  {
    var t := IntToString(i);
    NegativeText(i);
    assert j < 0 by {
      IntToStringSign(i);
      IntToStringSign(j);
    }
    NegativeText(j);
    assert NatToString(-i) == t[1..] == NatToString(-j);
    NatToStringInjective(-i, -j);
  }

  /** Rendering is injective: distinct integers give distinct texts. */
  lemma IntToStringInjective(i: int, j: int)
    requires IntToString(i) == IntToString(j)
    ensures i == j
  {
    if i < 0 {
      NegativeInjective(i, j);
    } else {
      IntToStringSign(i);
      IntToStringSign(j);
      NatToStringInjective(i, j);
    }
  }
}
