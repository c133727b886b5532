/**
 * The JavaScript string operations the client relies on, over `seq<char>`:
 * `startsWith`, `endsWith`, `includes`, `trim` and the decimal rendering of
 * a non-negative integer inside a template literal.
 */
module JsString {

  /** `s.startsWith(prefix)` */
  predicate StartsWith(s: string, prefix: string) {
    |prefix| <= |s| && s[..|prefix|] == prefix
  }

  /** `s.endsWith(suffix)` */
  predicate EndsWith(s: string, suffix: string) {
    |suffix| <= |s| && s[|s| - |suffix|..] == suffix
  }

  /** A suffix of a suffix is a suffix. */
  lemma EndsWithOfEndsWith(s: string, t: string, u: string)
    requires EndsWith(s, t) && EndsWith(t, u)
    ensures EndsWith(s, u)
  {
    assert s[|s| - |u|..] == s[|s| - |t|..][|t| - |u|..];
  }

  /** `sub` occurs in `s` starting at index `i`. */
  predicate OccursAt(s: string, sub: string, i: nat) {
    i + |sub| <= |s| && s[i..i + |sub|] == sub
  }

  /** `s.includes(sub)`: a scan from the front for an occurrence of `sub`. */
  predicate Includes(s: string, sub: string)
    decreases |s|
  {
    StartsWith(s, sub) || (|s| > 0 && Includes(s[1..], sub))
  }

  /** The scan finds exactly the strings in which `sub` occurs somewhere. */
  lemma {:induction false} IncludesIffOccurs(s: string, sub: string)
    ensures Includes(s, sub) <==> exists i: nat :: OccursAt(s, sub, i)
    decreases |s|
  {
    if StartsWith(s, sub) {
      assert OccursAt(s, sub, 0);
    } else if |s| > 0 {
      IncludesIffOccurs(s[1..], sub);
      if Includes(s[1..], sub) {
        var j: nat :| OccursAt(s[1..], sub, j);
        assert s[j + 1..j + 1 + |sub|] == s[1..][j..j + |sub|];
        assert OccursAt(s, sub, j + 1);
      } else {
        forall i: nat | 0 < i && OccursAt(s, sub, i) ensures OccursAt(s[1..], sub, i - 1) {
          assert s[1..][i - 1..i - 1 + |sub|] == s[i..i + |sub|];
        }
      }
    }
  }

  /**
   * The characters `String.prototype.trim` removes (WhiteSpace and
   * LineTerminator), as inclusive ranges: TAB, LF, VT, FF and CR; SPACE;
   * NO-BREAK SPACE; OGHAM SPACE MARK; EN QUAD to HAIR SPACE; LINE and
   * PARAGRAPH SEPARATOR; NARROW NO-BREAK SPACE; MEDIUM MATHEMATICAL SPACE;
   * IDEOGRAPHIC SPACE; ZERO WIDTH NO-BREAK SPACE. This is the `i`-th range.
   */
  function SpaceRange(i: nat): (char, char)
    requires i < SpaceRangeCount
  {
    if i == 0 then ('\t', '\r')
    else if i == 1 then (' ', ' ')
    else if i == 2 then ('\U{A0}', '\U{A0}')
    else if i == 3 then ('\U{1680}', '\U{1680}')
    else if i == 4 then ('\U{2000}', '\U{200A}')
    else if i == 5 then ('\U{2028}', '\U{2029}')
    else if i == 6 then ('\U{202F}', '\U{202F}')
    else if i == 7 then ('\U{205F}', '\U{205F}')
    else if i == 8 then ('\U{3000}', '\U{3000}')
    else ('\U{FEFF}', '\U{FEFF}')
  }

  /** The number of whitespace ranges. */
  const SpaceRangeCount: nat := 10

  /** `c` lies in one of the ranges numbered `i` and above. */
  predicate InRangesFrom(c: char, i: nat)
    decreases SpaceRangeCount - i
  {
    i < SpaceRangeCount && (SpaceRange(i).0 <= c <= SpaceRange(i).1 || InRangesFrom(c, i + 1))
  }

  /** A character `trim` removes. */
  predicate IsJsSpace(c: char) {
    InRangesFrom(c, 0)
  }

  /** Every character of `s` is trimmable whitespace. */
  predicate AllSpace(s: string) {
    forall k :: 0 <= k < |s| ==> IsJsSpace(s[k])
  }

  /** The first index at or after `i` that does not hold whitespace, or `|s|`. */
  function StartIndex(s: string, i: nat): (n: nat)
    requires i <= |s|
    ensures i <= n <= |s|
    ensures forall k :: i <= k < n ==> IsJsSpace(s[k])
    ensures n < |s| ==> !IsJsSpace(s[n])
    decreases |s| - i
  {
    if i < |s| && IsJsSpace(s[i]) then StartIndex(s, i + 1) else i
  }

  /** The end, at or below `j` and above `lo`, of the text before the trailing whitespace of `s[lo..j]`. */
  function EndIndex(s: string, lo: nat, j: nat): (n: nat)
    requires lo <= j <= |s|
    ensures lo <= n <= j
    ensures forall k :: n <= k < j ==> IsJsSpace(s[k])
    ensures n > lo ==> !IsJsSpace(s[n - 1])
    decreases j
  {
    if j > lo && IsJsSpace(s[j - 1]) then EndIndex(s, lo, j - 1) else j
  }

  /** The bounds of what `trim` keeps: from the first to just after the last non-whitespace character. */
  function TrimBounds(s: string): (b: (nat, nat))
    ensures b.0 <= b.1 <= |s|
    ensures forall k :: 0 <= k < b.0 ==> IsJsSpace(s[k])
    ensures forall k :: b.1 <= k < |s| ==> IsJsSpace(s[k])
    ensures b.0 < b.1 <==> !AllSpace(s)
    ensures b.0 < b.1 ==> !IsJsSpace(s[b.0]) && !IsJsSpace(s[b.1 - 1])
  {
    var i := StartIndex(s, 0);
    var j := EndIndex(s, i, |s|);
    assert i < |s| ==> !IsJsSpace(s[i]) && i < j;
    (i, j)
  }

  /**
   * `s.trim()`: the infix of `s` left after removing whitespace from both
   * ends; it is empty exactly when `s` is all whitespace.
   */
  function Trim(s: string): (r: string)
    ensures r == "" <==> AllSpace(s)
    ensures r != "" ==> !IsJsSpace(r[0]) && !IsJsSpace(r[|r| - 1])
  {
    var b := TrimBounds(s);
    s[b.0..b.1]
  }

  /** `Trim(s)` is the infix `s[i..j]`, with only whitespace outside it. */
  lemma TrimIsInfix(s: string) returns (i: nat, j: nat)
    ensures i <= j <= |s| && Trim(s) == s[i..j]
    ensures AllSpace(s[..i]) && AllSpace(s[j..])
  {
    var b := TrimBounds(s);
    i, j := b.0, b.1;
    forall k | 0 <= k < i
      ensures IsJsSpace(s[..i][k])
    {
      assert s[..i][k] == s[k];
    }
    forall k | 0 <= k < |s| - j
      ensures IsJsSpace(s[j..][k])
    {
      assert s[j..][k] == s[j + k];
    }
  }

  /** Trimming twice is the same as trimming once. */
  lemma TrimIdempotent(s: string)
    ensures Trim(Trim(s)) == Trim(s)
  {
    var r := Trim(s);
    if r != "" {
      assert StartIndex(r, 0) == 0;
      assert EndIndex(r, 0, |r|) == |r|;
      assert r[0..|r|] == r;
    }
  }

  /** A decimal digit. */
  predicate IsDigit(c: char) {
    '0' <= c <= '9'
  }

  predicate AllDigits(s: string) {
    forall k :: 0 <= k < |s| ==> IsDigit(s[k])
  }

  /** The character of the decimal digit `d`. */
  function DigitChar(d: nat): (c: char)
    requires d < 10
    ensures IsDigit(c) && c as int - '0' as int == d
  {
    ('0' as int + d) as char
  }

  /**
   * `${n}` for a non-negative integer: its decimal digits, most significant
   * first, with a leading zero only for zero itself.
   */
  function NatToString(n: nat): (r: string)
    ensures |r| > 0 && AllDigits(r)
    ensures r[0] == '0' <==> n == 0
    decreases n
  {
    if n < 10 then [DigitChar(n)] else NatToString(n / 10) + [DigitChar(n % 10)]
  }

  /** The number a string of decimal digits denotes. */
  function DecimalValue(s: string): nat
    requires AllDigits(s)
    decreases |s|
  {
    if s == [] then 0 else DecimalValue(s[..|s| - 1]) * 10 + (s[|s| - 1] as int - '0' as int)
  }

  /** The length of the run of decimal digits at the front of `s`. */
  function DigitRun(s: string): (n: nat)
    ensures n <= |s|
    decreases |s|
  {
    if s != [] && IsDigit(s[0]) then 1 + DigitRun(s[1..]) else 0
  }

  /** A digit string followed by a non-digit is exactly the leading run. */
  lemma {:induction false} DigitRunOfDigits(d: string, rest: string)
    requires AllDigits(d)
    requires rest != [] && !IsDigit(rest[0])
    ensures DigitRun(d + rest) == |d|
    decreases |d|
  {
    if d != [] {
      assert (d + rest)[1..] == d[1..] + rest;
      DigitRunOfDigits(d[1..], rest);
    }
  }

  /** Reading back the rendered digits gives the number again. */
  lemma {:induction false} DecimalRoundTrip(n: nat)
    ensures DecimalValue(NatToString(n)) == n
    decreases n
  {
    if n >= 10 {
      DecimalRoundTrip(n / 10);
      var r := NatToString(n);
      assert r[..|r| - 1] == NatToString(n / 10);
    }
  }

  /** Distinct numbers render as distinct strings. */
  lemma NatToStringInjective(a: nat, b: nat)
    ensures NatToString(a) == NatToString(b) <==> a == b
  {
    DecimalRoundTrip(a);
    DecimalRoundTrip(b);
  }
}
