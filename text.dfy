/**
  The few JavaScript string operations the server relies on, on strings as
  sequences of code points: `String.prototype.trim`, `String.prototype.replace`
  with a one-character pattern, and the decimal rendering of an integral
  `Number` inside a template literal.
*/
module JsText {

  /** What `trim` removes: ECMAScript's WhiteSpace and LineTerminator code points
      (TAB, VT, FF, SP, NBSP, ZWNBSP, the Unicode Space_Separator category, LF,
      CR, LS and PS). */
  predicate IsWhiteSpace(c: char) {
    || c == '\t' || c == '\U{000B}' || c == '\U{000C}' || c == ' '
    || c == '\U{00A0}' || c == '\U{FEFF}'
    || c == '\n' || c == '\r' || c == '\U{2028}' || c == '\U{2029}'
    || c == '\U{1680}' || ('\U{2000}' <= c <= '\U{200A}')
    || c == '\U{202F}' || c == '\U{205F}' || c == '\U{3000}'
  }

  predicate AllWhiteSpace(s: string) {
    forall k :: 0 <= k < |s| ==> IsWhiteSpace(s[k])
  }

  /** Number of white-space characters at the start of `s`. */
  function LeadingWhiteSpace(s: string): (n: nat)
    ensures n <= |s|
    ensures AllWhiteSpace(s[..n])
    ensures n < |s| ==> !IsWhiteSpace(s[n])
  {
    if s == [] || !IsWhiteSpace(s[0]) then 0
    else
      var m := LeadingWhiteSpace(s[1..]);
      assert s[..m + 1] == [s[0]] + s[1..][..m];
      m + 1
  }

  /** Number of white-space characters at the end of `s`. */
  function TrailingWhiteSpace(s: string): (n: nat)
    ensures n <= |s|
    ensures AllWhiteSpace(s[|s| - n..])
    ensures n < |s| ==> !IsWhiteSpace(s[|s| - n - 1])
  {
    if s == [] || !IsWhiteSpace(s[|s| - 1]) then 0
    else
      var init := s[..|s| - 1];
      var m := TrailingWhiteSpace(init);
      assert s[|s| - (m + 1)..] == init[|init| - m..] + [s[|s| - 1]];
      m + 1
  }

  /** A concatenation is all white space exactly when both parts are. */
  lemma WhiteSpaceConcat(a: string, b: string)
    ensures AllWhiteSpace(a + b) <==> AllWhiteSpace(a) && AllWhiteSpace(b)
  {
    forall k | 0 <= k < |a| ensures (a + b)[k] == a[k] { }
    forall k | 0 <= k < |b| ensures (a + b)[|a| + k] == b[k] { }
  }

  /** White space on both sides of a split point is white space throughout. */
  lemma AllWhiteSpaceSplit(s: string, a: nat)
    requires a <= |s| && AllWhiteSpace(s[..a]) && AllWhiteSpace(s[a..])
    ensures AllWhiteSpace(s)
  {
    forall k | 0 <= k < |s| ensures IsWhiteSpace(s[k]) {
      if k < a {
        assert s[k] == s[..a][k];
      } else {
        assert s[k] == s[a..][k - a];
      }
    }
  }

  /** `String.prototype.trim`: `s` without its leading and trailing white space. */
  function Trim(s: string): (r: string)
    ensures |r| <= |s|
    ensures r == [] <==> AllWhiteSpace(s)
    ensures r != [] ==> !IsWhiteSpace(r[0]) && !IsWhiteSpace(r[|r| - 1])
  {
    var a := LeadingWhiteSpace(s);
    var rest := s[a..];
    var b := TrailingWhiteSpace(rest);
    var r := rest[..|rest| - b];
    assert r == [] ==> AllWhiteSpace(s) by {
      if r == [] {
        assert rest[|rest| - b..] == rest;
        AllWhiteSpaceSplit(s, a);
      }
    }
    assert AllWhiteSpace(s) ==> r == [] by {
      if AllWhiteSpace(s) {
        assert a == |s|;
      }
    }
    assert r != [] ==> !IsWhiteSpace(r[0]) && !IsWhiteSpace(r[|r| - 1]) by {
      if r != [] {
        assert r[0] == s[a];
        assert r[|r| - 1] == rest[|rest| - b - 1];
      }
    }
    r
  }

  /** What `trim` keeps is a contiguous part of `s`, and only white space is dropped around it. */
  lemma TrimIsInfix(s: string)
    ensures var i, r := LeadingWhiteSpace(s), Trim(s);
            && i + |r| <= |s|
            && r == s[i..i + |r|]
            && AllWhiteSpace(s[..i])
            && AllWhiteSpace(s[i + |r|..])
  {
    var i := LeadingWhiteSpace(s);
    var rest := s[i..];
    var b := TrailingWhiteSpace(rest);
    var r := Trim(s);
    assert r == rest[..|rest| - b];
    assert |r| == |rest| - b && i + |r| <= |s|;
    assert r == s[i..i + |r|];
    assert s[i + |r|..] == rest[|rest| - b..];
  }

  lemma TrimIdempotent(s: string)
    ensures Trim(Trim(s)) == Trim(s)
  {
    var r := Trim(s);
    if r != [] {
      assert LeadingWhiteSpace(r) == 0;
      assert TrailingWhiteSpace(r) == 0;
    }
  }

  /** `${first} ${last}`.trim() is empty exactly when both parts are white space. */
  lemma {:induction false} TrimJoinedEmpty(first: string, last: string)
    ensures Trim(first + " " + last) == [] <==> AllWhiteSpace(first) && AllWhiteSpace(last)
  {
    WhiteSpaceConcat(first, " ");
    WhiteSpaceConcat(first + " ", last);
    assert IsWhiteSpace(" "[0]);
  }

  /** `s.replace(c, replacement)` for a one-character string pattern: only the
      first occurrence of `c` is replaced. */
  function ReplaceFirst(s: string, c: char, replacement: string): (r: string)
    ensures c !in s ==> r == s
  {
    if s == [] then []
    else if s[0] == c then replacement + s[1..]
    else [s[0]] + ReplaceFirst(s[1..], c, replacement)
  }

  lemma {:induction false} ReplaceFirstOccurrence(prefix: string, c: char, replacement: string, suffix: string)
    requires c !in prefix
    ensures ReplaceFirst(prefix + [c] + suffix, c, replacement) == prefix + replacement + suffix
  {
    if prefix != [] {
      assert (prefix + [c] + suffix)[1..] == prefix[1..] + [c] + suffix;
      ReplaceFirstOccurrence(prefix[1..], c, replacement, suffix);
    } else {
      assert prefix + [c] + suffix == [c] + suffix;
    }
  }

  predicate IsDigit(c: char) {
    '0' <= c <= '9'
  }

  function DigitChar(k: int): (c: char)
    requires 0 <= k < 10
    ensures IsDigit(c)
  {
    ('0' as int + k) as char
  }

  function DigitValue(c: char): (k: int)
    ensures IsDigit(c) ==> 0 <= k < 10 && DigitChar(k) == c
  {
    c as int - '0' as int
  }

  /** Value of a string of decimal digits. */
  function DecimalValue(s: string): nat
    requires forall k :: 0 <= k < |s| ==> IsDigit(s[k])
  {
    if s == [] then 0 else 10 * DecimalValue(s[..|s| - 1]) + DigitValue(s[|s| - 1])
  }

  /** Decimal rendering of a non-negative integral Number (no exponent form). */
  function NatToString(n: nat): (r: string)
    ensures |r| >= 1
    ensures forall k :: 0 <= k < |r| ==> IsDigit(r[k])
    ensures r[0] == '0' ==> r == "0"
  {
    if n < 10 then [DigitChar(n)] else NatToString(n / 10) + [DigitChar(n % 10)]
  }

  lemma {:induction false} NatToStringValue(n: nat)
    ensures DecimalValue(NatToString(n)) == n
  {
    if n >= 10 {
      NatToStringValue(n / 10);
      var s := NatToString(n);
      assert s[..|s| - 1] == NatToString(n / 10);
    }
  }

  /** `${n}` for an integral Number: a minus sign before negative values. */
  function IntToString(n: int): (r: string)
    ensures |r| >= 1 && (r[0] == '-' <==> n < 0)
    ensures var digits := if n < 0 then r[1..] else r;
            && |digits| >= 1
            && (forall k :: 0 <= k < |digits| ==> IsDigit(digits[k]))
            && (digits[0] == '0' ==> digits == "0")
            && DecimalValue(digits) == if n < 0 then -n else n
  {
    NatToStringValue(if n < 0 then -n else n);
    if n < 0 then "-" + NatToString(-n) else NatToString(n)
  }
}
