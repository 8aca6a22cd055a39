/** The string operations the back end relies on: `str.lower`, `in` on strings,
    `str.count`, `str.rsplit`, decimal digits and `int(...)` on a run of digits.
    Case mapping and digit classes are ASCII only. */
module Strings {
  import opened Wrappers

  function LowerChar(c: char): char {
    if 'A' <= c <= 'Z' then (c as int + 32) as char else c
  }

  /** `s.lower()` restricted to ASCII letters. */
  function Lower(s: string): (r: string)
    ensures |r| == |s|
    ensures forall i :: 0 <= i < |r| ==> !('A' <= r[i] <= 'Z')
    ensures forall i :: 0 <= i < |s| && !('A' <= s[i] <= 'Z') ==> r[i] == s[i]
    ensures forall i :: 0 <= i < |s| && 'A' <= s[i] <= 'Z' ==> r[i] as int - 'a' as int == s[i] as int - 'A' as int
  {
    seq(|s|, i requires 0 <= i < |s| => LowerChar(s[i]))
  }

  predicate IsPrefix(p: string, s: string) {
    |p| <= |s| && s[..|p|] == p
  }

  /** Python's `needle in s` for strings: `needle` occurs in `s` at some position. */
  predicate Contains(s: string, needle: string)
    decreases |s|
  {
    IsPrefix(needle, s) || (|s| > 0 && Contains(s[1..], needle))
  }

  /** `s.startswith(c)` for a one-character prefix. */
  predicate StartsWith(s: string, c: char) {
    |s| > 0 && s[0] == c
  }

  /** `s.count(c)` for a single character. */
  function CountChar(s: string, c: char): nat {
    if s == [] then 0 else (if s[|s| - 1] == c then 1 else 0) + CountChar(s[..|s| - 1], c)
  }

  lemma {:induction false} CountCharZero(s: string, c: char)
    ensures CountChar(s, c) == 0 <==> c !in s
  {
    if s != [] {
      CountCharZero(s[..|s| - 1], c);
      assert s == s[..|s| - 1] + [s[|s| - 1]];
    }
  }

  lemma {:induction false} CountCharConcat(a: string, b: string, c: char)
    ensures CountChar(a + b, c) == CountChar(a, c) + CountChar(b, c)
  {
    if b == [] {
      assert a + b == a;
    } else {
      assert (a + b)[..|a + b| - 1] == a + b[..|b| - 1];
      CountCharConcat(a, b[..|b| - 1], c);
    }
  }

  /** The position of the last occurrence of `c` in `s`. */
  function LastIndexOf(s: string, c: char): (r: Option<nat>)
    ensures r.None? <==> c !in s
    ensures r.Some? ==> r.value < |s| && s[r.value] == c && c !in s[r.value + 1..]
  {
    if s == [] then None
    else if s[|s| - 1] == c then Some(|s| - 1)
    else
      var r := LastIndexOf(s[..|s| - 1], c);
      assert r.Some? ==> s[r.value + 1..] == s[..|s| - 1][r.value + 1..] + [s[|s| - 1]];
      r
  }

  predicate IsDigit(c: char) {
    '0' <= c <= '9'
  }

  predicate AllDigits(s: string) {
    forall i :: 0 <= i < |s| ==> IsDigit(s[i])
  }

  function DigitChar(d: nat): (c: char)
    requires d < 10
    ensures IsDigit(c)
  {
    ('0' as int + d) as char
  }

  /** `str(n)` for a natural number. */
  function NatToString(n: nat): (r: string)
    ensures |r| > 0 && AllDigits(r)
    ensures n < 10 <==> |r| == 1
  {
    if n < 10 then [DigitChar(n)] else NatToString(n / 10) + [DigitChar(n % 10)]
  }

  /** `int(s)` for a string of ASCII digits. */
  function ParseDecimal(s: string): nat
    requires AllDigits(s)
  {
    if s == [] then 0 else ParseDecimal(s[..|s| - 1]) * 10 + (s[|s| - 1] as int - '0' as int)
  }

  /** `int(str(n)) == n`. */
  lemma {:induction false} ParseNatToString(n: nat)
    ensures ParseDecimal(NatToString(n)) == n
  {
    if n >= 10 {
      var s := NatToString(n);
      assert s[..|s| - 1] == NatToString(n / 10);
      ParseNatToString(n / 10);
    }
  }

  lemma {:induction false} NatToStringInjective(a: nat, b: nat)
    requires NatToString(a) == NatToString(b)
    ensures a == b
  {
    ParseNatToString(a);
    ParseNatToString(b);
  }

  /** The longest prefix of `s` made of digits. */
  function DigitPrefix(s: string): (r: string)
    ensures IsPrefix(r, s) && AllDigits(r)
    ensures |r| < |s| ==> !IsDigit(s[|r|])
  {
    if s != [] && IsDigit(s[0]) then
      var t := DigitPrefix(s[1..]);
      assert s[..|t| + 1] == [s[0]] + s[1..][..|t|];
      [s[0]] + t
    else []
  }

  lemma {:induction false} DigitPrefixOfDigits(s: string)
    requires AllDigits(s)
    ensures DigitPrefix(s) == s
  {
    if s != [] {
      DigitPrefixOfDigits(s[1..]);
    }
  }

  /** The first maximal run of digits in `s`: `re.search(r'(\d+)', s).group(1)`,
      or None when `s` holds no digit. */
  function FirstDigitRun(s: string): (r: Option<string>)
    ensures r.None? <==> forall i :: 0 <= i < |s| ==> !IsDigit(s[i])
    ensures r.Some? ==> |r.value| > 0 && AllDigits(r.value)
  {
    if s == [] then None
    else if IsDigit(s[0]) then Some(DigitPrefix(s))
    else
      var r := FirstDigitRun(s[1..]);
      assert r.None? ==> forall i :: 0 <= i < |s| ==> !IsDigit(s[i]) by {
        if r.None? {
          forall i | 0 <= i < |s| ensures !IsDigit(s[i]) {
            if i > 0 { assert s[i] == s[1..][i - 1]; }
          }
        }
      }
      r
  }

  /** A run of digits followed by a non-digit (or nothing) is the digit prefix. */
  lemma {:induction false} DigitPrefixStops(d: string, rest: string)
    requires AllDigits(d)
    requires rest == [] || !IsDigit(rest[0])
    ensures DigitPrefix(d + rest) == d
  {
    if d == [] {
      assert d + rest == rest;
    } else {
      assert (d + rest)[1..] == d[1..] + rest;
      DigitPrefixStops(d[1..], rest);
    }
  }

  /** A dotted identifier such as "A1.2": a non-digit prefix, a number, then a suffix
      that does not start with a digit yields that number's digits. */
  lemma {:induction false} FirstDigitRunBeforeSuffix(prefix: string, n: nat, rest: string)
    requires forall i :: 0 <= i < |prefix| ==> !IsDigit(prefix[i])
    requires rest == [] || !IsDigit(rest[0])
    ensures FirstDigitRun(prefix + NatToString(n) + rest) == Some(NatToString(n))
  {
    if prefix == [] {
      assert prefix + NatToString(n) + rest == NatToString(n) + rest;
      DigitPrefixStops(NatToString(n), rest);
    } else {
      assert (prefix + NatToString(n) + rest)[1..] == prefix[1..] + NatToString(n) + rest;
      FirstDigitRunBeforeSuffix(prefix[1..], n, rest);
    }
  }

  /** The run found starts at the first digit of `s` and is the longest run of digits
      there, as `re.search(r'(\d+)', s)` finds it. */
  lemma {:induction false} FirstDigitRunIsLeftmost(s: string)
    ensures FirstDigitRun(s).Some? ==>
      exists k :: 0 <= k < |s| && IsDigit(s[k]) && (forall i :: 0 <= i < k ==> !IsDigit(s[i]))
        && FirstDigitRun(s).value == DigitPrefix(s[k..])
  {
    if s != [] && !IsDigit(s[0]) {
      FirstDigitRunIsLeftmost(s[1..]);
      if FirstDigitRun(s).Some? {
        var k :| 0 <= k < |s[1..]| && IsDigit(s[1..][k]) && (forall i :: 0 <= i < k ==> !IsDigit(s[1..][i]))
          && FirstDigitRun(s[1..]).value == DigitPrefix(s[1..][k..]);
        assert s[1..][k..] == s[k + 1..];
        forall i | 0 <= i < k + 1
          ensures !IsDigit(s[i])
        {
          if i > 0 { assert s[i] == s[1..][i - 1]; }
        }
        assert IsDigit(s[k + 1]);
      }
    } else if s != [] {
      assert s[0..] == s;
    }
  }

  /** An identifier made of a non-digit prefix and a number yields that number's digits. */
  lemma {:induction false} FirstDigitRunAfterLetters(prefix: string, n: nat)
    requires forall i :: 0 <= i < |prefix| ==> !IsDigit(prefix[i])
    ensures FirstDigitRun(prefix + NatToString(n)) == Some(NatToString(n))
  {
    if prefix == [] {
      assert prefix + NatToString(n) == NatToString(n);
      DigitPrefixOfDigits(NatToString(n));
    } else {
      assert (prefix + NatToString(n))[1..] == prefix[1..] + NatToString(n);
      FirstDigitRunAfterLetters(prefix[1..], n);
    }
  }
}
