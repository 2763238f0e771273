/** The string operations of Python that the services rely on, over `seq<char>`:
    ASCII lower-casing, `startswith`, the substring test `part in s`, `any(...)` over a
    keyword list, `isdigit`, `", ".join`, `str.replace` and decimal rendering of integers. */
module Strings {

  /** Python's `str.lower` restricted to ASCII letters; every other character is kept. */
  function LowerChar(c: char): char {
    if 'A' <= c <= 'Z' then (c as int + 32) as char else c
  }

  function Lower(s: string): (r: string)
    ensures |r| == |s|
    ensures forall i :: 0 <= i < |s| ==> r[i] == LowerChar(s[i])
  {
    seq(|s|, i requires 0 <= i < |s| => LowerChar(s[i]))
  }

  /** `s.startswith(prefix)` */
  predicate StartsWith(s: string, prefix: string) {
    |prefix| <= |s| && s[..|prefix|] == prefix
  }

  /** `part in s` for two strings: `part` occurs somewhere in `s` (the empty string occurs everywhere). */
  predicate Contains(s: string, part: string)
    decreases |s|
  {
    StartsWith(s, part) || (|s| > 0 && Contains(s[1..], part))
  }

  /** A word with a character that does not occur in a string does not occur in it. */
  lemma {:induction false} NotContained(s: string, w: string, j: nat)
    requires j < |w| && w[j] !in s
    ensures !Contains(s, w)
    decreases |s|
  {
    if |w| <= |s| {
      assert s[..|w|][j] == s[j] && s[j] in s;
    }
    if |s| > 0 {
      NotContained(s[1..], w, j);
    }
  }

  /** `any(word in s for word in words)` */
  predicate ContainsAny(s: string, words: seq<string>)
    decreases |words|
  {
    |words| > 0 && (Contains(s, words[0]) || ContainsAny(s, words[1..]))
  }

  /** `any(...)` holds exactly when one of the words occurs. */
  lemma {:induction false} ContainsAnyExists(s: string, words: seq<string>)
    ensures ContainsAny(s, words) <==> exists k :: 0 <= k < |words| && Contains(s, words[k])
    decreases |words|
  {
    if |words| > 0 {
      ContainsAnyExists(s, words[1..]);
      if exists k :: 0 <= k < |words| && Contains(s, words[k]) {
        var k :| 0 <= k < |words| && Contains(s, words[k]);
        if k > 0 { assert words[1..][k - 1] == words[k]; }
      }
      if ContainsAny(s, words[1..]) {
        var k :| 0 <= k < |words[1..]| && Contains(s, words[1..][k]);
        assert Contains(s, words[k + 1]);
      }
    }
  }

  /** A string in which some word occurs as a prefix of a tail makes `any(...)` hold. */
  lemma ContainsAnyWitness(s: string, words: seq<string>, k: nat)
    requires k < |words| && Contains(s, words[k])
    ensures ContainsAny(s, words)
  {
    ContainsAnyExists(s, words);
  }

  predicate IsDigit(c: char) {
    '0' <= c <= '9'
  }

  /** Python's `str.isdigit` on ASCII: non-empty and every character a decimal digit. */
  predicate IsDigits(s: string) {
    |s| > 0 && forall i :: 0 <= i < |s| ==> IsDigit(s[i])
  }

  /** `sep.join(parts)` */
  function Join(parts: seq<string>, sep: string): string
    decreases |parts|
  {
    if |parts| == 0 then ""
    else if |parts| == 1 then parts[0]
    else parts[0] + sep + Join(parts[1..], sep)
  }

  /** A joined list ends with its last part. */
  lemma {:induction false} JoinEndsWithLast(parts: seq<string>, sep: string)
    requires |parts| > 0
    ensures |Join(parts, sep)| >= |parts[|parts| - 1]|
    ensures var j := Join(parts, sep); j[|j| - |parts[|parts| - 1]|..] == parts[|parts| - 1]
    decreases |parts|
  {
    if |parts| > 1 {
      JoinEndsWithLast(parts[1..], sep);
      var rest := Join(parts[1..], sep);
      var last := parts[|parts| - 1];
      assert parts[1..][|parts[1..]| - 1] == last;
      var j := parts[0] + sep + rest;
      assert j[|j| - |last|..] == rest[|rest| - |last|..];
    }
  }

  /** `s.replace(target, replacement)` for a non-empty `target`: every non-overlapping occurrence, scanning
      left to right, is replaced. */
  function ReplaceAll(s: string, target: string, replacement: string): string
    requires |target| > 0
    decreases |s|
  {
    if |s| < |target| then s
    else if StartsWith(s, target) then replacement + ReplaceAll(s[|target|..], target, replacement)
    else [s[0]] + ReplaceAll(s[1..], target, replacement)
  }

  /** Replacing a string by itself changes nothing. */
  lemma {:induction false} ReplaceByItself(s: string, t: string)
    requires |t| > 0
    ensures ReplaceAll(s, t, t) == s
    decreases |s|
  {
    if |s| >= |t| {
      if StartsWith(s, t) {
        ReplaceByItself(s[|t|..], t);
        assert s == s[..|t|] + s[|t|..];
      } else {
        ReplaceByItself(s[1..], t);
        assert s == [s[0]] + s[1..];
      }
    }
  }

  /** Replacing something that does not occur changes nothing. */
  lemma {:induction false} ReplaceAbsent(s: string, target: string, replacement: string)
    requires |target| > 0 && !Contains(s, target)
    ensures ReplaceAll(s, target, replacement) == s
    decreases |s|
  {
    if |s| >= |target| {
      ReplaceAbsent(s[1..], target, replacement);
      assert s == [s[0]] + s[1..];
    }
  }

  /** A string occurs only in a string at least as long. */
  lemma {:induction false} ContainsLength(s: string, part: string)
    requires Contains(s, part)
    ensures |part| <= |s|
    decreases |s|
  {
    if !StartsWith(s, part) {
      ContainsLength(s[1..], part);
    }
  }

  /** What occurs in a tail occurs in the whole string. */
  lemma {:induction false} ContainsInSuffix(a: string, b: string, part: string)
    requires Contains(b, part)
    ensures Contains(a + b, part)
    decreases |a|
  {
    if |a| > 0 {
      ContainsInSuffix(a[1..], b, part);
      assert (a + b)[1..] == a[1..] + b;
    } else {
      assert a + b == b;
    }
  }

  /** Replacing a target that occurs writes the replacement into the string. */
  lemma {:induction false} ReplaceIntroduces(s: string, target: string, replacement: string)
    requires |target| > 0
    ensures Contains(s, target) ==> Contains(ReplaceAll(s, target, replacement), replacement)
    decreases |s|
  {
    if !Contains(s, target) {
      return;
    }
    ContainsLength(s, target);
    var r := ReplaceAll(s, target, replacement);
    if StartsWith(s, target) {
      assert r[..|replacement|] == replacement;
    } else {
      ReplaceIntroduces(s[1..], target, replacement);
      assert r[1..] == ReplaceAll(s[1..], target, replacement);
    }
  }

  /** Lower-casing keeps an occurrence of a string that lower-casing does not change. */
  lemma {:induction false} LowerKeepsLowercase(s: string, part: string)
    requires Contains(s, part) && Lower(part) == part
    ensures Contains(Lower(s), part)
    decreases |s|
  {
    if StartsWith(s, part) {
      assert forall i :: 0 <= i < |part| ==> Lower(s)[i] == LowerChar(s[i]) == LowerChar(part[i]) == Lower(part)[i];
      assert Lower(s)[..|part|] == part;
    } else {
      LowerKeepsLowercase(s[1..], part);
      assert Lower(s)[1..] == Lower(s[1..]);
    }
  }

  /** No character of `a` occurs in `b`. */
  predicate Disjoint(a: string, b: string) {
    forall c :: c in a ==> c !in b
  }

  /** A replacement whose target shares no character with a prefix keeps that prefix. */
  lemma {:induction false} ReplaceKeepsPrefix(s: string, part: string, target: string, replacement: string)
    requires |target| > 0 && StartsWith(s, part) && Disjoint(part, target)
    ensures StartsWith(ReplaceAll(s, target, replacement), part)
    decreases |s|
  {
    if |part| > 0 && |s| >= |target| {
      assert s[0] == part[0] && part[0] in part;
      assert target[0] in target;
      assert !StartsWith(s, target);
      assert StartsWith(s[1..], part[1..]) by { assert s[1..][..|part| - 1] == s[..|part|][1..]; }
      assert Disjoint(part[1..], target) by {
        forall c | c in part[1..] ensures c !in target { assert c in part; }
      }
      ReplaceKeepsPrefix(s[1..], part[1..], target, replacement);
      var r := ReplaceAll(s, target, replacement);
      assert r == [s[0]] + ReplaceAll(s[1..], target, replacement);
      assert r[..|part|] == [s[0]] + ReplaceAll(s[1..], target, replacement)[..|part| - 1];
      assert part == [part[0]] + part[1..];
    }
  }

  /** An occurrence cannot start inside a prefix whose characters differ from its first one. */
  lemma {:induction false} ContainsSkip(s: string, part: string, n: nat)
    requires Contains(s, part) && |part| > 0 && n <= |s|
    requires forall p :: 0 <= p < n ==> s[p] != part[0]
    ensures Contains(s[n..], part)
  {
    if n > 0 {
      assert s[0] != part[0];
      assert !StartsWith(s, part) by {
        if |part| <= |s| { assert s[..|part|][0] == s[0]; }
      }
      assert forall p :: 0 <= p < n - 1 ==> s[1..][p] != part[0] by {
        forall p | 0 <= p < n - 1 ensures s[1..][p] != part[0] { assert s[1..][p] == s[p + 1]; }
      }
      ContainsSkip(s[1..], part, n - 1);
      assert s[1..][n - 1..] == s[n..];
    }
  }

  /** A replacement whose target shares no character with a string keeps every occurrence of it. */
  lemma {:induction false} ReplaceKeeps(s: string, part: string, target: string, replacement: string)
    requires |target| > 0 && Contains(s, part) && Disjoint(part, target)
    ensures Contains(ReplaceAll(s, target, replacement), part)
    decreases |s|
  {
    var r := ReplaceAll(s, target, replacement);
    if StartsWith(s, part) {
      ReplaceKeepsPrefix(s, part, target, replacement);
    } else if |s| >= |target| {
      if StartsWith(s, target) {
        assert part[0] in part;
        assert forall p :: 0 <= p < |target| ==> s[p] != part[0] by {
          forall p | 0 <= p < |target| ensures s[p] != part[0] {
            assert s[p] == s[..|target|][p] == target[p] && target[p] in target;
          }
        }
        ContainsSkip(s, part, |target|);
        ReplaceKeeps(s[|target|..], part, target, replacement);
        ContainsInSuffix(replacement, ReplaceAll(s[|target|..], target, replacement), part);
      } else {
        ReplaceKeeps(s[1..], part, target, replacement);
        ContainsInSuffix([s[0]], ReplaceAll(s[1..], target, replacement), part);
      }
    }
  }

  function DigitChar(d: nat): char
    requires d < 10
  {
    ('0' as int + d) as char
  }

  /** `str(n)` for a natural number. */
  function NatToDecimal(n: nat): string
    decreases n
  {
    if n < 10 then [DigitChar(n)] else NatToDecimal(n / 10) + [DigitChar(n % 10)]
  }

  /** The number a string of decimal digits denotes (`int(s)`). */
  function DecimalValue(s: string): nat
    requires forall i :: 0 <= i < |s| ==> IsDigit(s[i])
    decreases |s|
  {
    if |s| == 0 then 0
    else DecimalValue(s[..|s| - 1]) * 10 + DigitValue(s[|s| - 1])
  }

  function DigitValue(c: char): (d: nat)
    requires IsDigit(c)
    ensures d < 10
  {
    c as int - '0' as int
  }

  function Pow10(k: nat): nat {
    if k == 0 then 1 else 10 * Pow10(k - 1)
  }

  /** `str(n)` is a digit string without a leading zero (unless n is 0) that `int` reads back as n. */
  lemma {:induction false} NatToDecimalRoundTrip(n: nat)
    ensures IsDigits(NatToDecimal(n))
    ensures n > 0 ==> NatToDecimal(n)[0] != '0'
    ensures DecimalValue(NatToDecimal(n)) == n
    decreases n
  {
    var s := NatToDecimal(n);
    if n >= 10 {
      NatToDecimalRoundTrip(n / 10);
      assert s[..|s| - 1] == NatToDecimal(n / 10);
    }
  }

  /** A number with k digits renders as a string of length k. */
  lemma {:induction false} NatToDecimalLength(n: nat, k: nat)
    requires k > 0 && Pow10(k - 1) <= n < Pow10(k)
    ensures |NatToDecimal(n)| == k
    decreases k
  {
    if k > 1 {
      assert Pow10(k - 1) == 10 * Pow10(k - 2);
      NatToDecimalLength(n / 10, k - 1);
    } else {
      assert Pow10(0) == 1 && Pow10(1) == 10;
    }
  }
}
