/** The string operations the reformatters use: Python's `in` on strings,
    str.replace, ''.join, str.lower (ASCII letters), right padding, the
    decimal digits of a number and Python's code-point order on strings
    (the order pandas sorts and groups string keys in). */
module Text {

  predicate IsDigit(c: char) {
    '0' <= c <= '9'
  }

  predicate AllDigits(s: string) {
    forall i :: 0 <= i < |s| ==> IsDigit(s[i])
  }

  function DigitChar(d: nat): (c: char)
    requires d < 10
    ensures IsDigit(c) && c as int - '0' as int == d
  {
    ('0' as int + d) as char
  }

  function Pow10(k: nat): (p: nat)
    ensures p >= 1
  {
    if k == 0 then 1 else 10 * Pow10(k - 1)
  }

  /** The number a string of decimal digits denotes (int(s) for such s). */
  function DigitsValue(s: string): (n: nat)
    requires AllDigits(s)
    ensures n < Pow10(|s|)
  {
    if s == [] then 0
    else DigitsValue(s[..|s| - 1]) * 10 + (s[|s| - 1] as int - '0' as int)
  }

  /** str(n) for a natural number n; it reads back as n. */
  function NatToString(n: nat): (s: string)
    ensures |s| > 0 && AllDigits(s) && DigitsValue(s) == n
    ensures n >= 10 ==> s[0] != '0'
  {
    if n < 10 then [DigitChar(n)]
    else
      var s := NatToString(n / 10) + [DigitChar(n % 10)];
      assert s[..|s| - 1] == NatToString(n / 10);
      s
  }

  predicate OccursAt(s: string, p: string, i: int) {
    0 <= i && i + |p| <= |s| && s[i..i + |p|] == p
  }

  /** Python's `p in s` for strings. */
  predicate Contains(s: string, p: string) {
    exists i :: 0 <= i <= |s| && OccursAt(s, p, i)
  }

  /** ''.join(ss) */
  function Join(ss: seq<string>): string {
    if ss == [] then "" else ss[0] + Join(ss[1..])
  }

  /** A name that holds p makes the joined names hold it. */
  lemma {:induction false} JoinHolds(ss: seq<string>, k: nat, p: string)
    requires k < |ss| && Contains(ss[k], p)
    ensures Contains(Join(ss), p)
    decreases k
  {
    var rest := Join(ss[1..]);
    assert Join(ss) == ss[0] + rest;
    if k == 0 {
      var i :| 0 <= i <= |ss[0]| && OccursAt(ss[0], p, i);
      assert (ss[0] + rest)[i..i + |p|] == ss[0][i..i + |p|];
      assert OccursAt(Join(ss), p, i);
    } else {
      assert ss[1..][k - 1] == ss[k];
      JoinHolds(ss[1..], k - 1, p);
      var i :| 0 <= i <= |rest| && OccursAt(rest, p, i);
      assert (ss[0] + rest)[|ss[0]| + i..|ss[0]| + i + |p|] == rest[i..i + |p|];
      assert OccursAt(Join(ss), p, |ss[0]| + i);
    }
  }

  /** s.replace(pat, rep): every non-overlapping occurrence of pat, scanned from the left. */
  function ReplaceAll(s: string, pat: string, rep: string): string
    requires |pat| > 0
    decreases |s|
  {
    if |s| < |pat| then s
    else if s[..|pat|] == pat then rep + ReplaceAll(s[|pat|..], pat, rep)
    else [s[0]] + ReplaceAll(s[1..], pat, rep)
  }

  /** Replacing a character by a text that does not hold it leaves no occurrence of it. */
  lemma {:induction false} ReplaceCharRemovesIt(s: string, c: char, rep: string)
    requires c !in rep
    ensures c !in ReplaceAll(s, [c], rep)
    decreases |s|
  {
    if |s| >= 1 {
      ReplaceCharRemovesIt(s[1..], c, rep);
    }
  }

  /** Replacing a character: every other character is kept, in order. */
  lemma {:induction false} ReplaceCharKeepsOthers(s: string, c: char)
    ensures |ReplaceAll(s, [c], "")| + multiset(s)[c] == |s|
    ensures forall d :: d != c ==> multiset(ReplaceAll(s, [c], ""))[d] == multiset(s)[d]
    decreases |s|
  {
    if |s| >= 1 {
      ReplaceCharKeepsOthers(s[1..], c);
      assert s == [s[0]] + s[1..];
    }
  }

  /** A text without the pattern is left as it is. */
  lemma {:induction false} ReplaceAbsent(s: string, pat: string, rep: string)
    requires |pat| > 0 && !Contains(s, pat)
    ensures ReplaceAll(s, pat, rep) == s
    decreases |s|
  {
    if |s| >= |pat| {
      assert !OccursAt(s, pat, 0);
      assert s[0..0 + |pat|] == s[..|pat|];
      if Contains(s[1..], pat) {
        var i :| 0 <= i <= |s[1..]| && OccursAt(s[1..], pat, i);
        assert s[1..][i..i + |pat|] == s[i + 1..i + 1 + |pat|];
        assert OccursAt(s, pat, i + 1);
      }
      ReplaceAbsent(s[1..], pat, rep);
    }
  }

  /** s + c * (n - len(s)) when s is shorter than n, else s. */
  function PadRight(s: string, n: nat, c: char): (r: string)
    ensures |r| == if |s| < n then n else |s|
    ensures r[..|s|] == s
    ensures forall i :: |s| <= i < |r| ==> r[i] == c
  {
    if |s| < n then s + seq(n - |s|, _ => c) else s
  }

  /** str.lower() on the ASCII letters (the only letters the compared values use). */
  function Lower(s: string): (r: string)
    ensures |r| == |s|
  {
    if s == [] then ""
    else [if 'A' <= s[0] <= 'Z' then (s[0] as int + 32) as char else s[0]] + Lower(s[1..])
  }

  /** s.split(c)[0]: the text before the first c (all of s when c does not occur). */
  function Before(s: string, c: char): (r: string)
    ensures |r| <= |s| && r == s[..|r|] && c !in r
    ensures c in s ==> |r| < |s| && s[|r|] == c
    ensures c !in s ==> r == s
  {
    if s == [] then ""
    else if s[0] == c then ""
    else [s[0]] + Before(s[1..], c)
  }

  /** Python's a <= b on str: code point by code point, a proper prefix first. */
  predicate Le(a: string, b: string)
    decreases |a|
  {
    if a == [] then true
    else if b == [] then false
    else if a[0] == b[0] then Le(a[1..], b[1..])
    else a[0] < b[0]
  }

  predicate Lt(a: string, b: string) {
    Le(a, b) && a != b
  }

  lemma {:induction false} LeRefl(a: string)
    ensures Le(a, a)
    decreases |a|
  {
    if a != [] { LeRefl(a[1..]); }
  }

  lemma {:induction false} LeTotal(a: string, b: string)
    ensures Le(a, b) || Le(b, a)
    decreases |a|
  {
    if a != [] && b != [] && a[0] == b[0] { LeTotal(a[1..], b[1..]); }
  }

  lemma {:induction false} LeAntisym(a: string, b: string)
    requires Le(a, b) && Le(b, a)
    ensures a == b
    decreases |a|
  {
    if a != [] && b != [] {
      LeAntisym(a[1..], b[1..]);
      assert a == [a[0]] + a[1..] && b == [b[0]] + b[1..];
    }
  }

  lemma {:induction false} LeTrans(a: string, b: string, c: string)
    requires Le(a, b) && Le(b, c)
    ensures Le(a, c)
    decreases |a|
  {
    if a != [] && b != [] && c != [] && a[0] == b[0] && b[0] == c[0] {
      LeTrans(a[1..], b[1..], c[1..]);
    }
  }
}
