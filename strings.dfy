/** The handful of Python `str` operations the client library relies on. */
module Strings {
  import opened Wrappers

  /** ASCII model of `str.lower()` on one character. */
  function LowerChar(c: char): char
  {
    if 'A' <= c <= 'Z' then (c as int + 32) as char else c
  }

  /** `s.lower()` (ASCII letters only). */
  function Lower(s: string): (r: string)
    ensures |r| == |s|
    ensures forall i :: 0 <= i < |r| ==> !('A' <= r[i] <= 'Z')
    ensures forall i :: 0 <= i < |s| && 'A' <= s[i] <= 'Z' ==> r[i] as int == s[i] as int - 'A' as int + 'a' as int
    ensures forall i :: 0 <= i < |s| && !('A' <= s[i] <= 'Z') ==> r[i] == s[i]
  {
    seq(|s|, i requires 0 <= i < |s| => LowerChar(s[i]))
  }

  /** Lowering is idempotent: `s.lower().lower() == s.lower()`. */
  lemma LowerIdempotent(s: string)
    ensures Lower(Lower(s)) == Lower(s)
  {
  }

  /** `s.startswith(p)`. */
  predicate StartsWith(s: string, p: string)
  {
    |p| <= |s| && s[..|p|] == p
  }

  /** `s.endswith(p)`. */
  predicate EndsWith(s: string, p: string)
  {
    |p| <= |s| && s[|s| - |p|..] == p
  }

  /** `t in s` for strings: `t` occurs as a contiguous substring of `s`. */
  predicate Contains(s: string, t: string)
  {
    exists i | 0 <= i <= |s| - |t| :: OccursAt(s, t, i)
  }

  /** `t` occurs in `s` starting at index `i`. */
  predicate OccursAt(s: string, t: string, i: int)
  {
    0 <= i <= |s| - |t| && s[i..i + |t|] == t
  }

  /** A string none of whose characters is the first character of `t` does not contain `t`. */
  lemma NotContainsFirstChar(s: string, t: string)
    requires |t| > 0
    requires forall j :: 0 <= j < |s| ==> s[j] != t[0]
    ensures !Contains(s, t)
  {
    if i :| OccursAt(s, t, i) {
      assert s[i..i + |t|][0] == s[i];
    }
  }

  /** Every string contains each of its infixes. */
  lemma ContainsInfix(a: string, b: string, c: string)
    ensures Contains(a + b + c, b)
  {
    assert OccursAt(a + b + c, b, |a|);
  }

  /** Every string contains each of its suffixes. */
  lemma ContainsSuffix(a: string, b: string)
    ensures Contains(a + b, b)
  {
    assert OccursAt(a + b, b, |a|);
  }

  /** `sep.join(xs)`. */
  function Join(sep: string, xs: seq<string>): string
  {
    if |xs| == 0 then "" else if |xs| == 1 then xs[0] else xs[0] + sep + Join(sep, xs[1..])
  }

  /** `s.replace(c, r)` for a one-character pattern `c`. */
  function ReplaceChar(s: string, c: char, r: string): string
  {
    if s == [] then [] else (if s[0] == c then r else [s[0]]) + ReplaceChar(s[1..], c, r)
  }

  lemma {:induction false} ReplaceCharAppend(a: string, b: string, c: char, r: string)
    ensures ReplaceChar(a + b, c, r) == ReplaceChar(a, c, r) + ReplaceChar(b, c, r)
  {
    if a != [] {
      assert (a + b)[0] == a[0];
      assert (a + b)[1..] == a[1..] + b;
      ReplaceCharAppend(a[1..], b, c, r);
      var h := if a[0] == c then r else [a[0]];
      assert ReplaceChar(a + b, c, r) == h + (ReplaceChar(a[1..], c, r) + ReplaceChar(b, c, r));
    } else {
      assert a + b == b;
    }
  }

  lemma {:induction false} ReplaceCharAbsent(s: string, c: char, r: string)
    requires c !in s
    ensures ReplaceChar(s, c, r) == s
  {
    if s != [] {
      ReplaceCharAbsent(s[1..], c, r);
    }
  }

  /** The escaping applied before inlining a value between single quotes:
      `s.replace('\\', '\\\\').replace("'", "\\'")` (backslashes first, then quotes). */
  function EscapeQuoted(s: string): string
  {
    ReplaceChar(ReplaceChar(s, '\\', "\\\\"), '\'', "\\'")
  }

  /** The escaping the bulk statement builders apply: `s.replace("'", "\\'")` only. */
  function EscapeQuoteOnly(s: string): string
  {
    ReplaceChar(s, '\'', "\\'")
  }

  /** How the server reads the body of a single-quoted literal: a backslash makes
      the next character literal. */
  function Unescape(s: string): string
  {
    if s == [] then []
    else if s[0] == '\\' && |s| > 1 then [s[1]] + Unescape(s[2..])
    else [s[0]] + Unescape(s[1..])
  }

  /** One-pass form of `EscapeQuoted`: each backslash or quote gets one backslash in front. */
  function EscapeEach(s: string): string
  {
    if s == [] then []
    else (if s[0] == '\\' || s[0] == '\'' then ['\\', s[0]] else [s[0]]) + EscapeEach(s[1..])
  }

  lemma {:induction false} EscapeQuotedIsEscapeEach(s: string)
    ensures EscapeQuoted(s) == EscapeEach(s)
  {
    if s != [] {
      var head := if s[0] == '\\' then "\\\\" else [s[0]];
      assert ReplaceChar(s, '\\', "\\\\") == head + ReplaceChar(s[1..], '\\', "\\\\");
      ReplaceCharAppend(head, ReplaceChar(s[1..], '\\', "\\\\"), '\'', "\\'");
      EscapeQuotedIsEscapeEach(s[1..]);
    }
  }

  /** Inlining is lossless: the server reads back exactly the original text. */
  lemma {:induction false} UnescapeEscapeQuoted(s: string)
    ensures Unescape(EscapeQuoted(s)) == s
  {
    EscapeQuotedIsEscapeEach(s);
    UnescapeEscapeEach(s);
  }

  lemma {:induction false} UnescapeEscapeEach(s: string)
    ensures Unescape(EscapeEach(s)) == s
  {
    if s != [] {
      var head := if s[0] == '\\' || s[0] == '\'' then ['\\', s[0]] else [s[0]];
      assert EscapeEach(s) == head + EscapeEach(s[1..]);
      UnescapeEscapeEach(s[1..]);
      if s[0] == '\\' || s[0] == '\'' {
        assert (head + EscapeEach(s[1..]))[2..] == EscapeEach(s[1..]);
      } else {
        assert (head + EscapeEach(s[1..]))[1..] == EscapeEach(s[1..]);
      }
    }
  }

  /** Without backslashes in the value, quote-only escaping is also lossless. */
  lemma {:induction false} UnescapeEscapeQuoteOnly(s: string)
    requires '\\' !in s
    ensures Unescape(EscapeQuoteOnly(s)) == s
  {
    ReplaceCharAbsent(s, '\\', "\\\\");
    UnescapeEscapeQuoted(s);
  }

  /** With a trailing backslash, quote-only escaping loses the original text: `a\` is
      sent as `'a\'`, whose closing quote the server reads as an escaped quote. */
  lemma QuoteOnlyLosesTrailingBackslash()
    ensures EscapeQuoteOnly("a\\") == "a\\"
    ensures Unescape("a\\" + "'") != "a\\"
  {
    assert Unescape("a\\'") == "a'";
  }

  function DigitChar(d: nat): char
    requires d < 10
  {
    ('0' as int + d) as char
  }

  predicate IsDigit(c: char)
  {
    '0' <= c <= '9'
  }

  /** `str(n)` for a natural number. */
  function NatToString(n: nat): (s: string)
    ensures |s| > 0 && forall i :: 0 <= i < |s| ==> IsDigit(s[i])
  {
    if n < 10 then [DigitChar(n)] else NatToString(n / 10) + [DigitChar(n % 10)]
  }

  /** `str(i)` for a Python int. */
  function IntToString(i: int): string
  {
    if i < 0 then "-" + NatToString(-i) else NatToString(i)
  }

  function DigitValue(c: char): nat
    requires IsDigit(c)
  {
    c as int - '0' as int
  }

  /** Decimal value of a digit string. */
  function DigitsValue(s: string): nat
    requires forall i :: 0 <= i < |s| ==> IsDigit(s[i])
  {
    if s == [] then 0 else DigitsValue(s[..|s| - 1]) * 10 + DigitValue(s[|s| - 1])
  }

  /** Python `int(s)` on a sign-and-digits string; `None` where Python raises ValueError. */
  function ParseInt(s: string): (r: Option<int>)
  {
    if |s| > 1 && (s[0] == '-' || s[0] == '+') && forall i :: 1 <= i < |s| ==> IsDigit(s[i]) then
      var v := DigitsValue(s[1..]);
      Some(if s[0] == '-' then -(v as int) else v)
    else if |s| > 0 && forall i :: 0 <= i < |s| ==> IsDigit(s[i]) then
      Some(DigitsValue(s))
    else
      None
  }

  lemma {:induction false} NatToStringRoundTrip(n: nat)
    ensures DigitsValue(NatToString(n)) == n
    decreases n
  {
    if n >= 10 {
      var s := NatToString(n);
      assert s[..|s| - 1] == NatToString(n / 10);
      NatToStringRoundTrip(n / 10);
    }
  }

  /** `int(str(i)) == i`. */
  lemma IntToStringRoundTrip(i: int)
    ensures ParseInt(IntToString(i)) == Some(i)
  {
    if i < 0 {
      assert IntToString(i)[1..] == NatToString(-i);
      NatToStringRoundTrip(-i);
    } else {
      NatToStringRoundTrip(i);
    }
  }
}
