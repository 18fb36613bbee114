/**
 * The string operations of the Kotlin standard library that the firewall relies
 * on: suffix tests, `substringBeforeLast`, case folding, case-insensitive
 * search, blankness, string ordering and decimal rendering of integers.
 * Case folding is modelled for ASCII letters only.
 */
module Text {

  import opened Wrappers

  /** Kotlin `s.endsWith(suffix)`. */
  predicate EndsWith(s: string, suffix: string) {
    |suffix| <= |s| && s[|s| - |suffix|..] == suffix
  }

  /** Kotlin `s.startsWith(prefix)`. */
  predicate StartsWith(s: string, prefix: string) {
    |prefix| <= |s| && s[..|prefix|] == prefix
  }

  /** Kotlin `s.lastIndexOf(c)`: the position of the last `c`, or -1 when there is none. */
  function LastIndexOf(s: string, c: char): (r: int)
    ensures -1 <= r < |s|
    ensures r >= 0 ==> s[r] == c
    ensures forall i :: r < i < |s| ==> s[i] != c
  {
    if |s| == 0 then -1
    else if s[|s| - 1] == c then |s| - 1
    else LastIndexOf(s[..|s| - 1], c)
  }

  /**
   * Kotlin `s.substringBeforeLast(c)`: everything before the last `c`; the
   * whole string when `c` does not occur.
   */
  function SubstringBeforeLast(s: string, c: char): (r: string)
    ensures c !in s ==> r == s
    ensures c in s ==> |r| < |s| && r == s[..|r|] && s[|r|] == c && c !in s[|r| + 1..]
  {
    var i := LastIndexOf(s, c);
    if i < 0 then s else s[..i]
  }

  /** Cutting `p + [c] + t` at its last `c`, when `t` has none, gives back `p`. */
  lemma BeforeLastOfJoin(p: string, c: char, t: string)
    requires c !in t
    ensures SubstringBeforeLast(p + [c] + t, c) == p
  {
    var s := p + [c] + t;
    assert s[|p|] == c;
    forall j | |p| < j < |s|
      ensures s[j] != c
    {
      assert s[j] == t[j - |p| - 1];
    }
    assert LastIndexOf(s, c) == |p|;
    assert s[..|p|] == p;
  }

  /** Java's `Character.toLowerCase` on ASCII letters; other characters are left as they are. */
  function LowerChar(c: char): char {
    if 'A' <= c <= 'Z' then (c as int + 32) as char else c
  }

  /** ASCII lowercasing, standing in for Kotlin `s.lowercase()`: only 'A'..'Z' are folded. */
  function Lower(s: string): (r: string)
    ensures |r| == |s|
    ensures forall i :: 0 <= i < |s| ==> r[i] == LowerChar(s[i])
  {
    seq(|s|, i requires 0 <= i < |s| => LowerChar(s[i]))
  }

  /** `needle` occurs in `s` at position `i`. */
  predicate OccursAt(s: string, needle: string, i: int) {
    0 <= i && i + |needle| <= |s| && s[i..i + |needle|] == needle
  }

  /**
   * Kotlin `s.contains(query, ignoreCase = true)`, with ASCII case folding.
   * The empty query is contained in every string, and a query longer than
   * the string is contained in none.
   */
  predicate ContainsIgnoreCase(s: string, query: string): (r: bool)
    ensures query == "" ==> r
    ensures r ==> |query| <= |s|
  {
    assert query == "" ==> OccursAt(Lower(s), Lower(query), 0);
    exists i :: 0 <= i <= |s| - |query| && OccursAt(Lower(s), Lower(query), i)
  }

  /** Lowercasing twice is lowercasing once. */
  lemma LowerIdempotent(s: string)
    ensures Lower(Lower(s)) == Lower(s)
  {
  }

  /**
   * The search ignores case: lowercasing either side first changes nothing,
   * and an exact occurrence of the query is always found.
   */
  lemma ContainsIgnoresCase(s: string, query: string)
    ensures ContainsIgnoreCase(s, query) == ContainsIgnoreCase(Lower(s), Lower(query))
    ensures forall i :: OccursAt(s, query, i) ==> ContainsIgnoreCase(s, query)
  {
    LowerIdempotent(s);
    LowerIdempotent(query);
    forall i | OccursAt(s, query, i)
      ensures ContainsIgnoreCase(s, query)
    {
      assert Lower(s)[i..i + |query|] == Lower(s[i..i + |query|]);
      assert OccursAt(Lower(s), Lower(query), i);
    }
  }

  /** Java's `Character.isWhitespace` on code points below 128. */
  predicate IsWhitespace(c: char) {
    c == ' ' || 9 <= c as int <= 13 || 28 <= c as int <= 31
  }

  /** Kotlin `s.isBlank()`: empty or whitespace only (ASCII whitespace). */
  predicate IsBlank(s: string): (r: bool)
    ensures s == "" ==> r
    ensures r ==> forall c :: c in s ==> IsWhitespace(c)
  {
    forall i :: 0 <= i < |s| ==> IsWhitespace(s[i])
  }

  /** String order for `String.compareTo(a, b) <= 0`: character by character, a proper prefix first. */
  predicate LexLe(a: string, b: string) {
    if |a| == 0 then true
    else if |b| == 0 then false
    else if a[0] != b[0] then a[0] < b[0]
    else LexLe(a[1..], b[1..])
  }

  lemma {:induction false} LexLeReflexive(a: string)
    ensures LexLe(a, a)
  {
    if |a| > 0 {
      LexLeReflexive(a[1..]);
    }
  }

  lemma {:induction false} LexLeTotal(a: string, b: string)
    ensures LexLe(a, b) || LexLe(b, a)
  {
    if |a| > 0 && |b| > 0 && a[0] == b[0] {
      LexLeTotal(a[1..], b[1..]);
    }
  }

  lemma {:induction false} LexLeTransitive(a: string, b: string, c: string)
    requires LexLe(a, b) && LexLe(b, c)
    ensures LexLe(a, c)
  {
    if |a| > 0 && |b| > 0 && |c| > 0 && a[0] == b[0] && b[0] == c[0] {
      LexLeTransitive(a[1..], b[1..], c[1..]);
    }
  }

  // ---------------------------------------------------------------------------
  // Decimal rendering, as in Kotlin string templates ("$uid"), and its inverse.

  predicate IsDigit(c: char) {
    '0' <= c <= '9'
  }

  function DigitChar(d: nat): char
    requires d < 10
  {
    ('0' as int + d) as char
  }

  function DigitValue(c: char): nat
    requires IsDigit(c)
  {
    c as int - '0' as int
  }

  /** The decimal digits of `n`, most significant first, without leading zeros. */
  function NatToString(n: nat): (r: string)
    ensures |r| > 0
    ensures forall i :: 0 <= i < |r| ==> IsDigit(r[i])
  {
    if n < 10 then [DigitChar(n)] else NatToString(n / 10) + [DigitChar(n % 10)]
  }

  /** Kotlin's rendering of an `Int`: a minus sign for negatives. */
  function IntToString(i: int): string {
    if i < 0 then "-" + NatToString(-i) else NatToString(i)
  }

  /** The value of a string of decimal digits. */
  function DigitsValue(s: string): nat
    requires forall i :: 0 <= i < |s| ==> IsDigit(s[i])
  {
    if |s| == 0 then 0 else 10 * DigitsValue(s[..|s| - 1]) + DigitValue(s[|s| - 1])
  }

  /** Reads back a rendered integer: digits, optionally after one minus sign. */
  function ParseInt(s: string): Option<int> {
    if |s| > 1 && s[0] == '-' && forall i :: 1 <= i < |s| ==> IsDigit(s[i]) then
      Some(0 - DigitsValue(s[1..]) as int)
    else if |s| > 0 && forall i :: 0 <= i < |s| ==> IsDigit(s[i]) then
      Some(DigitsValue(s))
    else
      None
  }

  lemma {:induction false} DigitsValueOfNatToString(n: nat)
    ensures DigitsValue(NatToString(n)) == n
  {
    var r := NatToString(n);
    if n >= 10 {
      DigitsValueOfNatToString(n / 10);
      assert r[..|r| - 1] == NatToString(n / 10);
    }
  }

  /** Rendering an integer and reading it back gives the same integer. */
  lemma IntRoundTrip(i: int)
    ensures ParseInt(IntToString(i)) == Some(i)
  {
    if i < 0 {
      var digits := NatToString(-i);
      var s := IntToString(i);
      assert s[1..] == digits;
      forall k | 1 <= k < |s|
        ensures IsDigit(s[k])
      {
        assert s[k] == digits[k - 1];
      }
      DigitsValueOfNatToString(-i);
    } else {
      DigitsValueOfNatToString(i);
    }
  }
}
