/** The handful of ECMAScript string operations the scripts rely on
    (`trim`, `toLowerCase`, `includes`, `startsWith`, `endsWith`, `join`,
    number-to-string conversion and `parseInt`), over `seq<char>`. */
module Strings {
  import opened Wrappers

  /** ECMAScript's WhiteSpace and LineTerminator characters: what `trim`
      removes, what `parseInt` skips and what `\s` matches. */
  predicate IsWhitespace(c: char)
  {
    || c == ' ' || c == '\t' || c == '\n' || c == '\r'
    || c == '\U{B}' || c == '\U{C}' || c == '\U{A0}' || c == '\U{1680}'
    || ('\U{2000}' <= c <= '\U{200A}')
    || c == '\U{2028}' || c == '\U{2029}' || c == '\U{202F}' || c == '\U{205F}'
    || c == '\U{3000}' || c == '\U{FEFF}'
  }

  predicate NoWhitespace(s: string)
  {
    forall k :: 0 <= k < |s| ==> !IsWhitespace(s[k])
  }

  /** The first index at or after `i` whose character does not satisfy `drop`
      (or `|s|`). */
  function SkipLeading(s: string, drop: char -> bool, i: nat): (j: nat)
    requires i <= |s|
    ensures i <= j <= |s|
    ensures forall k :: i <= k < j ==> drop(s[k])
    ensures j < |s| ==> !drop(s[j])
    decreases |s| - i
  {
    if i < |s| && drop(s[i]) then SkipLeading(s, drop, i + 1) else i
  }

  /** The least index `e` in `[lo, j]` such that every character from `e` up to
      `j` satisfies `drop`. */
  function SkipTrailing(s: string, drop: char -> bool, lo: nat, j: nat): (e: nat)
    requires lo <= j <= |s|
    ensures lo <= e <= j
    ensures forall k :: e <= k < j ==> drop(s[k])
    ensures e > lo ==> !drop(s[e - 1])
    decreases j
  {
    if j > lo && drop(s[j - 1]) then SkipTrailing(s, drop, lo, j - 1) else j
  }

  /** Where `trimStart` cuts `s`. */
  function TrimOffset(s: string): (i: nat)
    ensures i <= |s|
  {
    SkipLeading(s, IsWhitespace, 0)
  }

  /** `String.prototype.trimStart`. */
  function TrimStart(s: string): (r: string)
    ensures r == s[TrimOffset(s)..]
    ensures forall k :: 0 <= k < TrimOffset(s) ==> IsWhitespace(s[k])
    ensures r != [] ==> !IsWhitespace(r[0])
  {
    s[TrimOffset(s)..]
  }

  /** `String.prototype.trim`: the factor of `s` left once the whitespace at
      both ends is cut away; it neither starts nor ends with whitespace, and
      it is empty exactly when `s` is all whitespace. */
  function Trim(s: string): (r: string)
    ensures r == [] <==> forall k :: 0 <= k < |s| ==> IsWhitespace(s[k])
    ensures r != [] ==> !IsWhitespace(r[0]) && !IsWhitespace(r[|r| - 1])
    ensures var i := TrimOffset(s);
      && i + |r| <= |s| && r == s[i..i + |r|]
      && (forall k :: 0 <= k < i ==> IsWhitespace(s[k]))
      && (forall k :: i + |r| <= k < |s| ==> IsWhitespace(s[k]))
  {
    var i := TrimOffset(s);
    var e := SkipTrailing(s, IsWhitespace, i, |s|);
    assert e == i ==> forall k :: 0 <= k < |s| ==> IsWhitespace(s[k]);
    s[i..e]
  }

  /** ASCII case mapping, as `toLowerCase` does on ASCII letters. */
  function LowerChar(c: char): char
  {
    if 'A' <= c <= 'Z' then (c as int + 32) as char else c
  }

  function ToLower(s: string): (r: string)
    ensures |r| == |s| && forall k :: 0 <= k < |s| ==> r[k] == LowerChar(s[k])
  {
    if s == [] then [] else [LowerChar(s[0])] + ToLower(s[1..])
  }

  /** `t` occurs in `s` starting at index `i`. */
  predicate OccursAt(s: string, t: string, i: int)
  {
    0 <= i <= |s| - |t| && s[i..i + |t|] == t
  }

  /** `s.includes(t)`. */
  predicate Contains(s: string, t: string)
  {
    exists i | 0 <= i <= |s| - |t| :: OccursAt(s, t, i)
  }

  /** Every string includes the empty string. */
  lemma ContainsEmpty(s: string)
    ensures Contains(s, "")
  {
    assert OccursAt(s, "", 0);
  }

  /** The first index at or after `i` where `t` occurs in `s`. */
  function IndexFrom(s: string, t: string, i: nat): (r: Option<nat>)
    decreases |s| - i
    ensures r.Some? ==> i <= r.value && OccursAt(s, t, r.value)
    ensures r.Some? ==> forall j :: i <= j < r.value ==> !OccursAt(s, t, j)
    ensures r.None? ==> forall j :: i <= j ==> !OccursAt(s, t, j)
  {
    if i + |t| > |s| then None
    else if s[i..i + |t|] == t then Some(i)
    else IndexFrom(s, t, i + 1)
  }

  /** `s.indexOf(t)`, with `None` for -1. */
  function IndexOf(s: string, t: string): (r: Option<nat>)
    ensures r.None? <==> !Contains(s, t)
    ensures r.Some? ==> OccursAt(s, t, r.value) && forall j :: 0 <= j < r.value ==> !OccursAt(s, t, j)
  {
    IndexFrom(s, t, 0)
  }

  /** `s.replace(t, replacement)` with a string pattern: only the first occurrence
      is replaced. */
  function ReplaceFirst(s: string, t: string, replacement: string): (r: string)
    ensures !Contains(s, t) ==> r == s
    ensures Contains(s, t) ==> exists i | 0 <= i <= |s| - |t| ::
      && OccursAt(s, t, i)
      && (forall j :: 0 <= j < i ==> !OccursAt(s, t, j))
      && r == s[..i] + replacement + s[i + |t|..]
  {
    match IndexOf(s, t)
    case None => s
    case Some(i) => s[..i] + replacement + s[i + |t|..]
  }

  /** A string without `t`'s first character does not include `t`. */
  lemma Absent(s: string, t: string)
    requires t != [] && t[0] !in s
    ensures !Contains(s, t)
  {
    forall i | 0 <= i <= |s| - |t| ensures !OccursAt(s, t, i) {
      assert s[i] in s;
      assert s[i..i + |t|][0] == s[i];
    }
  }

  predicate StartsWith(s: string, prefix: string)
  {
    |prefix| <= |s| && s[..|prefix|] == prefix
  }

  predicate EndsWith(s: string, suffix: string)
  {
    |suffix| <= |s| && s[|s| - |suffix|..] == suffix
  }

  /** `parts.join(sep)`. */
  function Join(parts: seq<string>, sep: string): string
  {
    if parts == [] then ""
    else if |parts| == 1 then parts[0]
    else parts[0] + sep + Join(parts[1..], sep)
  }

  /** The value of a digit character in bases up to 36, or 36 when it is none. */
  function DigitValue(c: char): nat
  {
    if '0' <= c <= '9' then c as int - '0' as int
    else if 'a' <= c <= 'z' then c as int - 'a' as int + 10
    else if 'A' <= c <= 'Z' then c as int - 'A' as int + 10
    else 36
  }

  predicate IsDigitIn(c: char, radix: nat)
  {
    DigitValue(c) < radix
  }

  predicate AllDigitsIn(s: string, radix: nat)
  {
    forall k :: 0 <= k < |s| ==> IsDigitIn(s[k], radix)
  }

  /** The number a string of digits denotes in the given radix. */
  function DigitsValue(s: string, radix: nat): nat
    requires AllDigitsIn(s, radix)
  {
    if s == [] then 0
    else DigitsValue(s[..|s| - 1], radix) * radix + DigitValue(s[|s| - 1])
  }

  /** The longest prefix of `s` made of digits of the radix. */
  function DigitPrefix(s: string, radix: nat): (r: string)
    ensures |r| <= |s| && r == s[..|r|] && AllDigitsIn(r, radix)
    ensures |r| < |s| ==> !IsDigitIn(s[|r|], radix)
  {
    if s != [] && IsDigitIn(s[0], radix) then
      var rest := DigitPrefix(s[1..], radix);
      assert s[..|rest| + 1] == [s[0]] + rest;
      [s[0]] + rest
    else []
  }

  /** The decimal representation of a natural number, as `${n}` writes it. */
  function NatToString(n: nat): (r: string)
    ensures r != [] && AllDigitsIn(r, 10)
    ensures r[0] == '0' ==> n == 0
  {
    var dc := ('0' as int + n % 10) as char;
    if n < 10 then [dc] else NatToString(n / 10) + [dc]
  }

  /** Reading the digits back gives the number: `NatToString` loses nothing. */
  lemma {:induction false} NatToStringValue(n: nat)
    ensures DigitsValue(NatToString(n), 10) == n
  {
    var s := NatToString(n);
    if n >= 10 {
      NatToStringValue(n / 10);
      assert s[..|s| - 1] == NatToString(n / 10);
    }
  }

  /** `parseInt(s)` (when `detectHex`, a `0x` prefix switches to base 16) and
      `parseInt(s, 10)` (when not); `None` stands for `NaN`. */
  function ParseInt(s: string, detectHex: bool): Option<int>
  {
    var t := TrimStart(s);
    var negative := t != [] && t[0] == '-';
    var u := if t != [] && (t[0] == '-' || t[0] == '+') then t[1..] else t;
    var hex := detectHex && |u| >= 2 && u[0] == '0' && (u[1] == 'x' || u[1] == 'X');
    var radix := if hex then 16 else 10;
    var v := if hex then u[2..] else u;
    var digits := DigitPrefix(v, radix);
    if digits == [] then None
    else
      var magnitude := DigitsValue(digits, radix);
      Some(if negative then -(magnitude as int) else magnitude)
  }

  /** A string made only of digits is its own longest digit prefix. */
  lemma {:induction false} DigitPrefixOfDigits(s: string, radix: nat)
    requires AllDigitsIn(s, radix)
    ensures DigitPrefix(s, radix) == s
  {
    if s != [] {
      DigitPrefixOfDigits(s[1..], radix);
    }
  }

  /** `parseInt` reads back what `NatToString` writes, in either mode. */
  lemma ParseIntOfNatToString(n: nat, detectHex: bool)
    ensures ParseInt(NatToString(n), detectHex) == Some(n)
  {
    var s := NatToString(n);
    assert '0' <= s[0] <= '9';
    assert !IsWhitespace(s[0]);
    assert TrimOffset(s) == 0;
    assert TrimStart(s) == s;
    assert s[0] == '0' ==> |s| == 1;
    DigitPrefixOfDigits(s, 10);
    NatToStringValue(n);
  }
}
