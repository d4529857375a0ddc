/**
 * String helpers with the meaning Python gives them: `str(n)` for integers,
 * `str.replace`, `str.startswith`, `s.split(c)[0]`, ASCII `str.lower` and
 * slicing `s[:n]`.
 */
module Text {

  predicate IsDigit(c: char) { '0' <= c <= '9' }

  predicate AllDigits(s: string) { forall i :: 0 <= i < |s| ==> IsDigit(s[i]) }

  function DigitChar(d: nat): (c: char)
    requires d < 10
    ensures IsDigit(c)
  {
    ['0', '1', '2', '3', '4', '5', '6', '7', '8', '9'][d]
  }

  function DigitValue(c: char): (d: nat)
    requires IsDigit(c)
    ensures d < 10
  {
    (c - '0') as nat
  }

  /** Decimal rendering of a natural number, as `str(n)`. */
  function NatToString(n: nat): (s: string)
    ensures |s| >= 1 && AllDigits(s)
    ensures n < 10 <==> |s| == 1
  {
    if n < 10 then [DigitChar(n)] else NatToString(n / 10) + [DigitChar(n % 10)]
  }

  /** Reads back a non-empty string of decimal digits. */
  function ParseNat(s: string): nat
    requires AllDigits(s)
  {
    if |s| == 0 then 0 else ParseNat(s[..|s| - 1]) * 10 + DigitValue(s[|s| - 1])
  }

  lemma {:induction false} ParseNatToString(n: nat)
    ensures ParseNat(NatToString(n)) == n
  {
    var s := NatToString(n);
    if n < 10 {
      assert s[..0] == [];
    } else {
      var p := NatToString(n / 10);
      assert s[..|s| - 1] == p;
      ParseNatToString(n / 10);
      assert DigitValue(DigitChar(n % 10)) == n % 10;
    }
  }

  /** Distinct numbers have distinct decimal renderings. */
  lemma NatToStringInjective(a: nat, b: nat)
    ensures NatToString(a) == NatToString(b) ==> a == b
  {
    ParseNatToString(a);
    ParseNatToString(b);
  }

  /** Decimal rendering of an integer with a leading '-' when negative, as `str(i)`. */
  function IntToString(i: int): (s: string)
    ensures |s| >= 1
    ensures i >= 0 ==> s == NatToString(i)
    ensures i < 0 ==> s == "-" + NatToString(-i)
  {
    if i < 0 then "-" + NatToString(-i) else NatToString(i)
  }

  lemma IntToStringInjective(a: int, b: int)
    ensures IntToString(a) == IntToString(b) ==> a == b
  {
    if a < 0 && b < 0 {
      MinusPrefixInjective(NatToString(-a), NatToString(-b));
      NatToStringInjective(-a, -b);
    } else if a >= 0 && b >= 0 {
      NatToStringInjective(a, b);
    } else if a < 0 {
      SignDistinguishes(-a, b);
    } else {
      SignDistinguishes(-b, a);
    }
  }

  lemma MinusPrefixInjective(x: string, y: string)
    ensures "-" + x == "-" + y ==> x == y
  {
    if "-" + x == "-" + y {
      assert x == ("-" + x)[1..];
      assert y == ("-" + y)[1..];
    }
  }

  /** A negative rendering starts with '-', a non-negative one with a digit. */
  lemma SignDistinguishes(n: nat, m: nat)
    ensures "-" + NatToString(n) != NatToString(m)
  {
    var s := NatToString(m);
    assert IsDigit(s[0]);
    assert ("-" + NatToString(n))[0] == '-';
  }

  predicate StartsWith(s: string, prefix: string) {
    |prefix| <= |s| && s[..|prefix|] == prefix
  }

  /** `pat` occurs in `s` at position i. */
  predicate OccursAt(s: string, pat: string, i: int) {
    0 <= i && i + |pat| <= |s| && s[i..i + |pat|] == pat
  }

  predicate Contains(s: string, pat: string) {
    exists i | 0 <= i <= |s| :: OccursAt(s, pat, i)
  }

  /** Python's `s.replace(pat, rep)`: every non-overlapping occurrence, left to right. */
  function Replace(s: string, pat: string, rep: string): string
    requires |pat| > 0
    decreases |s|
  {
    if |s| < |pat| then s
    else if s[..|pat|] == pat then rep + Replace(s[|pat|..], pat, rep)
    else [s[0]] + Replace(s[1..], pat, rep)
  }

  /** A string without the pattern is left as it is. */
  lemma {:induction false} ReplaceAbsent(s: string, pat: string, rep: string)
    requires |pat| > 0
    requires !Contains(s, pat)
    ensures Replace(s, pat, rep) == s
    decreases |s|
  {
    if |s| >= |pat| {
      assert !OccursAt(s, pat, 0);
      assert s[..|pat|] != pat;
      forall i | 0 <= i <= |s| - 1 ensures !OccursAt(s[1..], pat, i) {
        if i + |pat| <= |s| - 1 {
          assert s[1..][i..i + |pat|] == s[i + 1..i + 1 + |pat|];
          assert !OccursAt(s, pat, i + 1);
        }
      }
      ReplaceAbsent(s[1..], pat, rep);
    }
  }

  /** A prefix without `c` passes through `Replace` untouched when `pat` starts with `c`. */
  lemma {:induction false} ReplaceKeepsPrefix(s: string, pat: string, rep: string, p: nat)
    requires |pat| > 0 && p <= |s|
    requires forall j :: 0 <= j < p ==> s[j] != pat[0]
    ensures Replace(s, pat, rep) == s[..p] + Replace(s[p..], pat, rep)
    decreases p
  {
    if |s| < |pat| {
      ReplaceShortIdentity(s, pat, rep);
      ReplaceShortIdentity(s[p..], pat, rep);
      assert s == s[..p] + s[p..];
    } else if p == 0 {
      assert s[..0] + s[0..] == s;
    } else {
      var t := s[1..];
      ReplaceSkip(s, pat, rep);
      ReplaceKeepsPrefix(t, pat, rep, p - 1);
      assert t[..p - 1] == s[1..p];
      assert t[p - 1..] == s[p..];
      assert [s[0]] + s[1..p] == s[..p];
    }
  }

  /** A first character that cannot start the pattern is copied. */
  lemma ReplaceSkip(s: string, pat: string, rep: string)
    requires |pat| > 0 && |pat| <= |s| && s[0] != pat[0]
    ensures Replace(s, pat, rep) == [s[0]] + Replace(s[1..], pat, rep)
  {
    assert s[..|pat|][0] == s[0];
  }

  lemma ReplaceShortIdentity(s: string, pat: string, rep: string)
    requires |pat| > 0 && |s| < |pat|
    ensures Replace(s, pat, rep) == s
  {
  }

  lemma ReplaceNonEmpty(s: string, pat: string, rep: string)
    requires |pat| > 0 && |rep| > 0 && |s| > 0
    ensures |Replace(s, pat, rep)| > 0
    ensures Replace(s, pat, rep)[0] == (if OccursAt(s, pat, 0) then rep[0] else s[0])
  {
  }

  /**
   * When the replacement contains none of the pattern's characters, no
   * occurrence of the pattern survives the replacement.
   */
  lemma {:induction false} ReplaceRemovesAll(s: string, pat: string, rep: string)
    requires |pat| > 0 && |rep| > 0
    requires forall a, b :: 0 <= a < |rep| && 0 <= b < |pat| ==> rep[a] != pat[b]
    requires forall b :: 0 < b < |pat| ==> pat[b] != pat[0]
    ensures !Contains(Replace(s, pat, rep), pat)
    decreases |s|
  {
    var r := Replace(s, pat, rep);
    if |s| < |pat| {
      assert |r| < |pat|;
    } else if s[..|pat|] == pat {
      var tail := Replace(s[|pat|..], pat, rep);
      assert r == rep + tail;
      ReplaceRemovesAll(s[|pat|..], pat, rep);
      forall i | 0 <= i <= |r| ensures !OccursAt(r, pat, i) {
        if i < |rep| && i + |pat| <= |r| {
          assert r[i..i + |pat|][0] == r[i] == rep[i];
        } else if i >= |rep| && i + |pat| <= |r| {
          assert r[i..i + |pat|] == tail[i - |rep|..i - |rep| + |pat|];
          assert !OccursAt(tail, pat, i - |rep|);
        }
      }
    } else {
      var x := s[1..];
      var tail := Replace(x, pat, rep);
      assert r == [s[0]] + tail;
      ReplaceRemovesAll(x, pat, rep);
      forall i | 0 <= i <= |r| ensures !OccursAt(r, pat, i) {
        if i > 0 && i + |pat| <= |r| {
          assert r[i..i + |pat|] == tail[i - 1..i - 1 + |pat|];
          assert !OccursAt(tail, pat, i - 1);
        } else if i == 0 {
          NoOccurrenceAtStart(s, pat, rep);
        }
      }
    }
  }

  /** The first index below `m` where `ch` occurs in `x`, or min(m, |x|). */
  function FirstIndexOf(x: string, ch: char, m: nat): (p: nat)
    ensures p <= m && p <= |x|
    ensures forall j :: 0 <= j < p ==> x[j] != ch
    ensures p < m && p < |x| ==> x[p] == ch
    ensures (p == m || p == |x|) || x[p] == ch
  {
    if m == 0 || |x| == 0 then 0
    else if x[0] == ch then 0
    else 1 + FirstIndexOf(x[1..], ch, m - 1)
  }

  /** The case of `ReplaceRemovesAll` where an occurrence would start at the very front. */
  lemma NoOccurrenceAtStart(s: string, pat: string, rep: string)
    requires |pat| > 0 && |rep| > 0 && |s| >= |pat|
    requires forall a, b :: 0 <= a < |rep| && 0 <= b < |pat| ==> rep[a] != pat[b]
    requires forall b :: 0 < b < |pat| ==> pat[b] != pat[0]
    requires s[..|pat|] != pat
    ensures !OccursAt([s[0]] + Replace(s[1..], pat, rep), pat, 0)
  {
    var x := s[1..];
    var m := |pat| - 1;
    if s[0] == pat[0] {
      var p := FirstIndexOf(x, pat[0], m);
      ReplaceKeepsPrefix(x, pat, rep, p);
      if p < m {
        ReplaceNonEmpty(x[p..], pat, rep);
        var c := Replace(x[p..], pat, rep)[0];
        assert c == rep[0] || c == pat[0];
        assert c != pat[p + 1];
        MismatchAt([s[0]] + Replace(x, pat, rep), pat, p + 1);
      } else {
        SameStart(s, pat, rep);
      }
    } else {
      MismatchAt([s[0]] + Replace(x, pat, rep), pat, 0);
    }
  }

  lemma MismatchAt(r: string, pat: string, k: nat)
    requires k < |pat| && (k < |r| ==> r[k] != pat[k])
    ensures !OccursAt(r, pat, 0)
  {
    if |pat| <= |r| {
      assert r[..|pat|][k] == r[k];
    }
  }

  lemma SameStart(s: string, pat: string, rep: string)
    requires |pat| > 0 && |s| >= |pat|
    requires s[..|pat|] != pat
    requires Replace(s[1..], pat, rep) == s[1..][..|pat| - 1] + Replace(s[1..][|pat| - 1..], pat, rep)
    ensures !OccursAt([s[0]] + Replace(s[1..], pat, rep), pat, 0)
  {
    var r := [s[0]] + Replace(s[1..], pat, rep);
    assert r[..|pat|] == s[..|pat|];
  }

  /** ASCII lower-casing, standing in for `str.lower`. */
  function LowerChar(c: char): char {
    if 'A' <= c <= 'Z' then (c - 'A' + 'a') as char else c
  }

  function Lower(s: string): (r: string)
    ensures |r| == |s| && forall i :: 0 <= i < |s| ==> r[i] == LowerChar(s[i])
  {
    seq(|s|, i requires 0 <= i < |s| => LowerChar(s[i]))
  }

  /** `s.replace(' ', '_')`. */
  function SpacesToUnderscores(s: string): (r: string)
    ensures |r| == |s|
    ensures forall i :: 0 <= i < |s| ==> r[i] == (if s[i] == ' ' then '_' else s[i])
  {
    seq(|s|, i requires 0 <= i < |s| => if s[i] == ' ' then '_' else s[i])
  }

  /** `s.split(c)[0]`: everything before the first `c`, or all of `s`. */
  function BeforeFirst(s: string, c: char): (r: string)
    ensures StartsWith(s, r)
    ensures c !in r
    ensures |r| < |s| ==> s[|r|] == c
    ensures c !in s ==> r == s
  {
    if |s| == 0 then ""
    else if s[0] == c then ""
    else [s[0]] + BeforeFirst(s[1..], c)
  }

  /** Python slicing `s[:n]` for n >= 0. */
  function Truncate(s: string, n: nat): string {
    if |s| <= n then s else s[..n]
  }
}
