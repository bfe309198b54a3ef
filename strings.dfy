/**
 * The few JavaScript string operations the modelled code relies on, written out
 * exactly: `startsWith`, `indexOf`, `includes`, `replace` with a string pattern,
 * `split(sep, 2)`, `trim`, decimal `toString` of a non-negative integer and
 * `padStart(2, "0")`.
 */
module Strings {

  /** `s.startsWith(p)`. */
  predicate StartsWith(s: string, p: string) {
    |p| <= |s| && s[..|p|] == p
  }

  /** `p` occurs in `s` at position `i`. */
  predicate OccursAt(s: string, p: string, i: nat) {
    i + |p| <= |s| && s[i..i + |p|] == p
  }

  /** `s.indexOf(p, from)`: the first position at or after `from` where `p` occurs, or -1. */
  function IndexOfFrom(s: string, p: string, from: nat): (r: int)
    ensures r == -1 || (from <= r && OccursAt(s, p, r))
    ensures r == -1 ==> forall i: nat :: from <= i ==> !OccursAt(s, p, i)
    ensures r != -1 ==> forall i: nat :: from <= i < r ==> !OccursAt(s, p, i)
    decreases |s| - from
  {
    if from + |p| > |s| then -1
    else if OccursAt(s, p, from) then from
    else IndexOfFrom(s, p, from + 1)
  }

  /** `s.indexOf(p)`. */
  function IndexOf(s: string, p: string): int {
    IndexOfFrom(s, p, 0)
  }

  /** `s.includes(p)`. */
  predicate Contains(s: string, p: string) {
    IndexOf(s, p) != -1
  }

  lemma ContainsIff(s: string, p: string)
    ensures Contains(s, p) <==> exists i: nat :: OccursAt(s, p, i)
  {
  }

  /** `s.replace(p, rep)` with a string pattern: only the first occurrence is replaced. */
  function ReplaceFirst(s: string, p: string, rep: string): string {
    var i := IndexOf(s, p);
    if i == -1 then s else s[..i] + rep + s[i + |p|..]
  }

  /** The first two pieces of `s.split(sep, 2)`, for a `sep` that occurs in `s`. */
  function Split2(s: string, sep: string): (string, string)
    requires sep != [] && Contains(s, sep)
  {
    var i := IndexOf(s, sep);
    var j := IndexOfFrom(s, sep, i + |sep|);
    (s[..i], if j == -1 then s[i + |sep|..] else s[i + |sep|..j])
  }

  /** An occurrence inside a slice is an occurrence in the whole string. */
  lemma OccursInSlice(s: string, i: nat, j: nat, p: string, k: nat)
    requires i <= j <= |s| && OccursAt(s[i..j], p, k)
    ensures OccursAt(s, p, i + k)
  {
    forall x | 0 <= x < |p| ensures s[i + k + x] == p[x] {
      assert s[i..j][k..k + |p|][x] == p[x];
    }
  }

  /** What a slice contains, the whole string contains. */
  lemma ContainsSlice(s: string, i: nat, j: nat, p: string)
    requires i <= j <= |s| && Contains(s[i..j], p)
    ensures Contains(s, p)
  {
    ContainsIff(s[i..j], p);
    var k: nat :| OccursAt(s[i..j], p, k);
    OccursInSlice(s, i, j, p, k);
    ContainsIff(s, p);
  }

  /** A slice in which `p` starts nowhere does not contain `p`. */
  lemma NoOccurrenceInSlice(s: string, p: string, lo: nat, hi: nat)
    requires p != [] && lo <= hi <= |s|
    requires forall i: nat :: lo <= i < hi ==> !OccursAt(s, p, i)
    ensures !Contains(s[lo..hi], p)
  {
    if Contains(s[lo..hi], p) {
      ContainsIff(s[lo..hi], p);
      var k: nat :| OccursAt(s[lo..hi], p, k);
      OccursInSlice(s, lo, hi, p, k);
      assert false;
    }
  }

  /** The first piece of `split(sep, 2)` is the text before the first `sep`. */
  lemma Split2First(s: string, sep: string)
    requires sep != [] && Contains(s, sep)
    ensures var i := IndexOf(s, sep);
      Split2(s, sep).0 == s[..i] && OccursAt(s, sep, i) && !Contains(Split2(s, sep).0, sep)
  {
    var i := IndexOf(s, sep);
    assert s[..i] == s[0..i];
    NoOccurrenceInSlice(s, sep, 0, i);
  }

  /**
   * The second piece runs from after the first `sep` up to the next `sep` or the end;
   * everything after that is dropped.
   */
  lemma Split2Second(s: string, sep: string)
    requires sep != [] && Contains(s, sep)
    ensures var i := IndexOf(s, sep);
      var e := i + |sep| + |Split2(s, sep).1|;
      e <= |s| && Split2(s, sep).1 == s[i + |sep|..e] && !Contains(Split2(s, sep).1, sep) &&
      (e < |s| ==> OccursAt(s, sep, e))
  {
    var i := IndexOf(s, sep);
    var a := i + |sep|;
    var e := NextOccurrenceOrEnd(s, sep, a);
    var t := Split2(s, sep).1;
    assert t == s[a..e];
    assert a + |t| == e;
    NoOccurrenceInSlice(s, sep, a, e);
  }

  /** Where the piece starting at `a` ends: the next `sep` at or after `a`, or the end. */
  lemma NextOccurrenceOrEnd(s: string, sep: string, a: nat) returns (e: nat)
    requires a <= |s|
    ensures var j := IndexOfFrom(s, sep, a); e == (if j == -1 then |s| else j)
    ensures a <= e <= |s| && forall k: nat :: a <= k < e ==> !OccursAt(s, sep, k)
    ensures e < |s| ==> OccursAt(s, sep, e)
  {
    var j := IndexOfFrom(s, sep, a);
    e := if j == -1 then |s| else j;
  }

  /** A character outside the Basic Multilingual Plane: JavaScript stores it as a surrogate pair. */
  predicate IsAstral(c: char) {
    c as int > 0xFFFF
  }

  /** `s.length` in JavaScript: the number of UTF-16 code units, two for an astral character. */
  function Utf16Length(s: string): (n: nat)
    ensures |s| <= n <= 2 * |s|
    ensures (forall k :: 0 <= k < |s| ==> !IsAstral(s[k])) ==> n == |s|
  {
    if s == [] then 0
    else Utf16Length(s[..|s| - 1]) + (if IsAstral(s[|s| - 1]) then 2 else 1)
  }

  /**
   * The characters ECMAScript's `String.prototype.trim` removes: the WhiteSpace
   * code points (tab, vertical tab, form feed, space, no-break space, the byte
   * order mark and the Unicode space separators) and the LineTerminators.
   */
  predicate IsJsWhitespace(c: char) {
    c == '\U{9}' || c == '\U{B}' || c == '\U{C}' || c == ' ' || c == '\U{A0}' ||
    c == '\U{FEFF}' || c == '\U{1680}' || ('\U{2000}' <= c <= '\U{200A}') ||
    c == '\U{202F}' || c == '\U{205F}' || c == '\U{3000}' ||
    c == '\n' || c == '\r' || c == '\U{2028}' || c == '\U{2029}'
  }

  /** Number of leading whitespace characters. */
  function LeadingWhitespace(s: string): (n: nat)
    ensures n <= |s|
    ensures forall k :: 0 <= k < n ==> IsJsWhitespace(s[k])
    ensures n < |s| ==> !IsJsWhitespace(s[n])
  {
    if s == [] || !IsJsWhitespace(s[0]) then 0 else 1 + LeadingWhitespace(s[1..])
  }

  /** Number of trailing whitespace characters. */
  function TrailingWhitespace(s: string): (n: nat)
    ensures n <= |s|
    ensures forall k :: |s| - n <= k < |s| ==> IsJsWhitespace(s[k])
    ensures n < |s| ==> !IsJsWhitespace(s[|s| - 1 - n])
  {
    if s == [] || !IsJsWhitespace(s[|s| - 1]) then 0 else 1 + TrailingWhitespace(s[..|s| - 1])
  }

  /** `s.trim()`. */
  function Trim(s: string): string {
    var a := LeadingWhitespace(s);
    var rest := s[a..];
    rest[..|rest| - TrailingWhitespace(rest)]
  }

  /**
   * `Trim` keeps a contiguous piece of its input, removes only whitespace, and
   * leaves no whitespace at either end.
   */
  lemma TrimSpec(s: string)
    ensures var r := Trim(s);
      |r| <= |s| &&
      (r == [] || (!IsJsWhitespace(r[0]) && !IsJsWhitespace(r[|r| - 1]))) &&
      (forall k :: 0 <= k < |s| && !IsJsWhitespace(s[k]) ==> r != [])
  {
    var a := LeadingWhitespace(s);
    var rest := s[a..];
    var b := TrailingWhitespace(rest);
    var r := Trim(s);
    assert r == rest[..|rest| - b];
    if r != [] {
      assert r[0] == rest[0] && r[|r| - 1] == rest[|rest| - 1 - b];
    }
    forall k | 0 <= k < |s| && !IsJsWhitespace(s[k]) ensures r != [] {
      assert a <= k;
      assert rest[k - a] == s[k];
      assert k - a < |rest| - b;
    }
  }

  /** `Trim` keeps a slice of its input, starting after the leading whitespace. */
  lemma TrimIsSlice(s: string)
    ensures var a := LeadingWhitespace(s);
      a + |Trim(s)| <= |s| && Trim(s) == s[a..a + |Trim(s)|]
  {
  }

  /** A string without whitespace at either end is its own trim. */
  lemma TrimOfTrimmed(s: string)
    requires s == [] || (!IsJsWhitespace(s[0]) && !IsJsWhitespace(s[|s| - 1]))
    ensures Trim(s) == s
  {
    assert LeadingWhitespace(s) == 0;
    assert s[0..] == s;
  }

  predicate IsDigit(c: char) {
    '0' <= c <= '9'
  }

  predicate AllDigits(s: string) {
    forall k :: 0 <= k < |s| ==> IsDigit(s[k])
  }

  function DigitChar(d: nat): (c: char)
    requires d < 10
  {
    ['0', '1', '2', '3', '4', '5', '6', '7', '8', '9'][d]
  }

  function DigitValue(c: char): nat
    requires IsDigit(c)
  {
    (c as int - '0' as int) as nat
  }

  /** Decimal rendering of a non-negative integer, as JavaScript's `toString()` gives it. */
  function NatToString(n: nat): (s: string)
    ensures s != [] && AllDigits(s)
    ensures |s| == 1 <==> n < 10
    ensures |s| > 1 ==> s[0] != '0'
    decreases n
  {
    if n < 10 then [DigitChar(n)] else NatToString(n / 10) + [DigitChar(n % 10)]
  }

  /** The value of a string of decimal digits. */
  function ParseDigits(s: string): nat
    requires AllDigits(s)
    decreases |s|
  {
    if s == [] then 0 else 10 * ParseDigits(s[..|s| - 1]) + DigitValue(s[|s| - 1])
  }

  lemma DigitRoundTrip(d: nat)
    requires d < 10
    ensures IsDigit(DigitChar(d)) && DigitValue(DigitChar(d)) == d
  {
  }

  /** Reading back what `NatToString` wrote gives the number again. */
  lemma {:induction false} ParseNatToString(n: nat)
    ensures ParseDigits(NatToString(n)) == n
    decreases n
  {
    var s := NatToString(n);
    if n < 10 {
      DigitRoundTrip(n);
    } else {
      ParseNatToString(n / 10);
      DigitRoundTrip(n % 10);
      assert s[..|s| - 1] == NatToString(n / 10);
    }
  }

  /** `NatToString` is injective. */
  lemma NatToStringInjective(a: nat, b: nat)
    requires NatToString(a) == NatToString(b)
    ensures a == b
  {
    ParseNatToString(a);
    ParseNatToString(b);
  }

  /** `s.padStart(2, "0")`. */
  function Pad2(s: string): string {
    if |s| >= 2 then s else seq(2 - |s|, _ => '0') + s
  }
}
