/** String operations of the JavaScript runtime that the route handlers and
    components rely on: `startsWith`, `includes`, `trim` and the decimal
    rendering of a non-negative integer inside a template literal. */
module Strings {

  /** `s.startsWith(prefix)` */
  function StartsWith(s: string, prefix: string): (r: bool)
    ensures r <==> |prefix| <= |s| && forall i :: 0 <= i < |prefix| ==> s[i] == prefix[i]
  {
    |prefix| <= |s| && s[..|prefix|] == prefix
  }

  /** `s.includes(sub)`: `sub` starts here or somewhere further on. */
  function Contains(s: string, sub: string): (r: bool)
    ensures r ==> |sub| <= |s|
    decreases |s|
  {
    StartsWith(s, sub) || (|s| > 0 && Contains(s[1..], sub))
  }

  /** `includes` finds `sub` exactly when some position of `s` starts an
      occurrence of it. */
  lemma {:induction false} ContainsAt(s: string, sub: string)
    ensures Contains(s, sub) <==> exists i :: 0 <= i <= |s| && StartsWith(s[i..], sub)
    decreases |s|
  {
    if |s| == 0 {
      if Contains(s, sub) {
        assert s[0..] == s;
      }
    } else {
      ContainsAt(s[1..], sub);
      if Contains(s, sub) {
        if StartsWith(s, sub) {
          assert s[0..] == s;
        } else {
          var j :| 0 <= j <= |s[1..]| && StartsWith(s[1..][j..], sub);
          assert s[1..][j..] == s[j + 1..];
        }
      }
      if exists i :: 0 <= i <= |s| && StartsWith(s[i..], sub) {
        var i :| 0 <= i <= |s| && StartsWith(s[i..], sub);
        if i == 0 {
          assert s[0..] == s;
        } else {
          assert s[1..][i - 1..] == s[i..];
        }
      }
    }
  }

  /** An occurrence of `sub` inside `s` uses only characters of `s`, so a
      character of `sub` that never occurs in `s` rules the occurrence out. */
  lemma {:induction false} NotContainsMissingChar(s: string, sub: string, c: char)
    requires c in sub && c !in s
    ensures !Contains(s, sub)
    decreases |s|
  {
    if |s| > 0 {
      assert c !in s[1..] by {
        forall i | 0 <= i < |s[1..]| ensures s[1..][i] != c {
          assert s[1..][i] == s[i + 1];
        }
      }
      NotContainsMissingChar(s[1..], sub, c);
    }
  }

  /** The characters `String.prototype.trim` removes: the ECMAScript
      WhiteSpace (tab, vertical tab, form feed, space, no-break space, byte
      order mark and the Unicode Zs category) and LineTerminator code points. */
  predicate IsWhitespace(c: char) {
    c == '\t' || c == '\n' || c == '\U{000B}' || c == '\U{000C}' || c == '\r' ||
    c == ' ' || c == '\U{00A0}' || c == '\U{1680}' ||
    ('\U{2000}' <= c <= '\U{200A}') ||
    c == '\U{2028}' || c == '\U{2029}' || c == '\U{202F}' || c == '\U{205F}' ||
    c == '\U{3000}' || c == '\U{FEFF}'
  }

  /** Where the leading whitespace from `lo` on stops: the first position
      at or after `lo` that is not whitespace, or the end of `s`. */
  function SkipWhitespace(s: string, lo: nat): (n: nat)
    requires lo <= |s|
    ensures lo <= n <= |s|
    ensures forall i :: lo <= i < n ==> IsWhitespace(s[i])
    ensures n == |s| || !IsWhitespace(s[n])
    decreases |s| - lo
  {
    if lo < |s| && IsWhitespace(s[lo]) then SkipWhitespace(s, lo + 1) else lo
  }

  /** Where the trailing whitespace of `s[lo..hi]` starts: everything from
      there to `hi` is whitespace, and the character before it is not. */
  function TrailingWhitespace(s: string, lo: nat, hi: nat): (m: nat)
    requires lo <= hi <= |s|
    ensures lo <= m <= hi
    ensures forall i :: m <= i < hi ==> IsWhitespace(s[i])
    ensures m == lo || !IsWhitespace(s[m - 1])
    decreases hi - lo
  {
    if lo < hi && IsWhitespace(s[hi - 1]) then TrailingWhitespace(s, lo, hi - 1) else hi
  }

  /** `r` sits at offset `a` of `s` and only whitespace surrounds it. */
  predicate SurroundedByWhitespace(s: string, r: string, a: int) {
    0 <= a <= |s| - |r| && r == s[a..a + |r|] &&
    (forall i :: 0 <= i < a ==> IsWhitespace(s[i])) &&
    (forall i :: a + |r| <= i < |s| ==> IsWhitespace(s[i]))
  }

  /** `s.trim()`: the longest piece of `s` that neither starts nor ends
      with whitespace, everything around it being whitespace. */
  function Trim(s: string): (r: string)
    ensures exists a :: SurroundedByWhitespace(s, r, a)
    ensures r == [] || (!IsWhitespace(r[0]) && !IsWhitespace(r[|r| - 1]))
  {
    var a := SkipWhitespace(s, 0);
    var b := TrailingWhitespace(s, a, |s|);
    assert SurroundedByWhitespace(s, s[a..b], a);
    s[a..b]
  }

  /** `s.trim() === ""` exactly when every character of `s` is whitespace. */
  lemma TrimEmptyIff(s: string)
    ensures Trim(s) == [] <==> forall i :: 0 <= i < |s| ==> IsWhitespace(s[i])
  {
    var r := Trim(s);
    if r != [] {
      var a :| SurroundedByWhitespace(s, r, a);
      assert s[a] == r[0];
    }
  }

  function DigitChar(d: nat): (c: char)
    requires d < 10
    ensures '0' <= c <= '9' && c as int - '0' as int == d
  {
    (d + '0' as int) as char
  }

  /** The decimal digits of `n`, as `${n}` renders a non-negative integer:
      at least one digit and no leading zero. */
  function NatToString(n: nat): (s: string)
    ensures |s| >= 1 && (forall i :: 0 <= i < |s| ==> '0' <= s[i] <= '9')
    ensures s[0] == '0' ==> n == 0
  {
    if n < 10 then [DigitChar(n)] else NatToString(n / 10) + [DigitChar(n % 10)]
  }

  predicate AllDigits(s: string) {
    forall i :: 0 <= i < |s| ==> '0' <= s[i] <= '9'
  }

  /** The value a string of decimal digits denotes. */
  function DecimalValue(s: string): nat
    requires AllDigits(s)
  {
    if s == [] then 0 else DecimalValue(s[..|s| - 1]) * 10 + (s[|s| - 1] as int - '0' as int)
  }

  /** Reading back the digits of `n` gives `n`, so distinct statuses are
      rendered as distinct texts. */
  lemma {:induction false} DecimalRoundTrip(n: nat)
    ensures DecimalValue(NatToString(n)) == n
  {
    var s := NatToString(n);
    if n >= 10 {
      DecimalRoundTrip(n / 10);
      assert s[..|s| - 1] == NatToString(n / 10);
    }
  }
}
