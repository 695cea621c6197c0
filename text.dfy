/**
 * The JavaScript string operations the application relies on:
 * `String.prototype.trim`, the first piece of `split(sep)`,
 * `substring(0, n)` and the decimal rendering of an integer.
 */
module JsText {

  /** WhiteSpace and LineTerminator code points of ECMAScript, the set `trim` removes. */
  predicate IsJsWhitespace(c: char) {
    || c == '\t' || c == '\n' || c == '\U{B}' || c == '\U{C}' || c == '\r' || c == ' '
    || c == '\U{A0}' || c == '\U{1680}' || ('\U{2000}' <= c <= '\U{200A}')
    || c == '\U{2028}' || c == '\U{2029}' || c == '\U{202F}' || c == '\U{205F}'
    || c == '\U{3000}' || c == '\U{FEFF}'
  }

  predicate AllWhitespace(s: string) {
    forall k | 0 <= k < |s| :: IsJsWhitespace(s[k])
  }

  /** The number of whitespace characters `s` starts with. */
  function LeadCount(s: string): (n: nat)
    ensures n <= |s|
    ensures forall k | 0 <= k < n :: IsJsWhitespace(s[k])
    ensures n < |s| ==> !IsJsWhitespace(s[n])
  {
    if s != [] && IsJsWhitespace(s[0]) then
      var n := 1 + LeadCount(s[1..]);
      assert forall k | 1 <= k < n :: s[k] == s[1..][k - 1];
      n
    else 0
  }

  /** The number of whitespace characters `s` ends with. */
  function TrailCount(s: string): (n: nat)
    ensures n <= |s|
    ensures forall k | |s| - n <= k < |s| :: IsJsWhitespace(s[k])
    ensures n < |s| ==> !IsJsWhitespace(s[|s| - 1 - n])
  {
    if s != [] && IsJsWhitespace(s[|s| - 1]) then
      var n := 1 + TrailCount(s[..|s| - 1]);
      assert forall k | |s| - n <= k < |s| - 1 :: s[k] == s[..|s| - 1][k];
      n
    else 0
  }

  /**
   * `s.trim()`: the infix of `s` left after removing the whitespace at both ends.
   * The result starts at offset `LeadCount(s)`, everything before and after it
   * is whitespace, and it neither starts nor ends with whitespace.
   */
  function Trim(s: string): (r: string)
    ensures var lead := LeadCount(s);
      && lead + |r| <= |s|
      && r == s[lead..lead + |r|]
      && (forall k | 0 <= k < lead :: IsJsWhitespace(s[k]))
      && (forall k | lead + |r| <= k < |s| :: IsJsWhitespace(s[k]))
    ensures r != [] ==> !IsJsWhitespace(r[0]) && !IsJsWhitespace(r[|r| - 1])
  {
    var lead := LeadCount(s);
    if lead == |s| then [] else s[lead..|s| - TrailCount(s)]
  }

  /** A string trims to the empty string exactly when it is all whitespace. */
  lemma TrimEmptyIffWhitespace(s: string)
    ensures Trim(s) == [] <==> AllWhitespace(s)
  {
    var lead := LeadCount(s);
    if Trim(s) == [] {
      assert lead == |s|;
    } else {
      var r := Trim(s);
      assert r[0] == s[lead];
    }
  }

  /** Trimming a trimmed string changes nothing. */
  lemma TrimIdempotent(s: string)
    ensures Trim(Trim(s)) == Trim(s)
  {
    var r := Trim(s);
    if r != [] {
      assert LeadCount(r) == 0;
      assert TrailCount(r) == 0;
    }
  }

  /** `sep` occurs in `s` starting at index `i`. */
  predicate OccursAt(s: string, sep: string, i: int) {
    0 <= i && i + |sep| <= |s| && s[i..i + |sep|] == sep
  }

  lemma OccursAtTail(s: string, sep: string, i: int)
    requires s != [] && 1 <= i
    ensures OccursAt(s, sep, i) <==> OccursAt(s[1..], sep, i - 1)
  {
    if i + |sep| <= |s| {
      assert s[1..][i - 1..i - 1 + |sep|] == s[i..i + |sep|];
    }
  }

  /**
   * `s.split(sep)[0]` for a non-empty separator: the text of `s` before the first
   * occurrence of `sep`, or all of `s` when `sep` does not occur.
   */
  function BeforeFirst(s: string, sep: string): (r: string)
    requires sep != []
    ensures r <= s
    ensures forall i | 0 <= i < |r| :: !OccursAt(s, sep, i)
    ensures r == s || OccursAt(s, sep, |r|)
    decreases |s|
  {
    if |s| < |sep| then s
    else if s[..|sep|] == sep then []
    else
      var tail := BeforeFirst(s[1..], sep);
      var r := [s[0]] + tail;
      assert !OccursAt(s, sep, 0);
      forall i | 1 <= i < |r| ensures !OccursAt(s, sep, i) {
        OccursAtTail(s, sep, i);
      }
      OccursAtTail(s, sep, |r|);
      r
  }

  /** `sep` occurs nowhere in `t`. */
  predicate FreeOf(t: string, sep: string) {
    forall i | 0 <= i < |t| :: !OccursAt(t, sep, i)
  }

  /** The part before the first separator contains no separator. */
  lemma BeforeFirstFreeOf(s: string, sep: string)
    requires sep != []
    ensures FreeOf(BeforeFirst(s, sep), sep)
  {
    var p := BeforeFirst(s, sep);
    forall i | 0 <= i < |p| ensures !OccursAt(p, sep, i) {
      if OccursAt(p, sep, i) {
        assert p[i..i + |sep|] == s[i..i + |sep|];
        assert OccursAt(s, sep, i);
      }
    }
  }

  /** An infix of a separator-free string is separator-free. */
  lemma InfixFreeOf(t: string, lo: int, hi: int, sep: string)
    requires 0 <= lo <= hi <= |t| && FreeOf(t, sep)
    ensures FreeOf(t[lo..hi], sep)
  {
    var u := t[lo..hi];
    forall i | 0 <= i < |u| ensures !OccursAt(u, sep, i) {
      if OccursAt(u, sep, i) {
        assert lo + i + |sep| <= hi;
        forall k | 0 <= k < |sep| ensures t[lo + i..lo + i + |sep|][k] == sep[k] {
          assert t[lo + i..lo + i + |sep|][k] == u[i..i + |sep|][k];
        }
        assert OccursAt(t, sep, lo + i);
      }
    }
  }

  /** `s.substring(0, n)` and `s.slice(0, n)`: the first `n` elements, or all of `s` when it is shorter. */
  function Take<T>(s: seq<T>, n: nat): (r: seq<T>)
    ensures r <= s
    ensures |r| == if |s| < n then |s| else n
  {
    if |s| <= n then s else s[..n]
  }

  predicate IsDigit(c: char) {
    '0' <= c <= '9'
  }

  function DigitChar(d: nat): (c: char)
    requires d < 10
    ensures IsDigit(c)
  {
    ['0', '1', '2', '3', '4', '5', '6', '7', '8', '9'][d]
  }

  function DigitValue(c: char): nat
    requires IsDigit(c)
  {
    (c as int - '0' as int) as nat
  }

  /** The decimal digits of `n`, most significant first, with no leading zero. */
  function NatDigits(n: nat): (r: string)
    ensures r != []
    ensures forall k | 0 <= k < |r| :: IsDigit(r[k])
    ensures r[0] == '0' ==> n == 0
  {
    if n < 10 then [DigitChar(n)] else NatDigits(n / 10) + [DigitChar(n % 10)]
  }

  /** The value of a string of decimal digits. */
  function DigitsValue(s: string): nat
    requires forall k | 0 <= k < |s| :: IsDigit(s[k])
  {
    if s == [] then 0 else DigitsValue(s[..|s| - 1]) * 10 + DigitValue(s[|s| - 1])
  }

  lemma DigitCharValue(d: nat)
    requires d < 10
    ensures DigitValue(DigitChar(d)) == d
  {
  }

  /** Reading back the digits of `n` gives `n`. */
  lemma {:induction false} NatDigitsRoundTrip(n: nat)
    ensures DigitsValue(NatDigits(n)) == n
  {
    var r := NatDigits(n);
    if n < 10 {
      DigitCharValue(n);
    } else {
      NatDigitsRoundTrip(n / 10);
      DigitCharValue(n % 10);
      assert r[..|r| - 1] == NatDigits(n / 10);
    }
  }

  /** `String(n)` for an integer `n`: an optional minus sign followed by the digits of `|n|`. */
  function Decimal(n: int): string {
    if n < 0 then "-" + NatDigits(-n) else NatDigits(n)
  }
}
