/**
 * String helpers shared by both applications: ASCII lower-casing, substring
 * search, prefix and suffix tests, joining with a separator, and the decimal
 * rendering of integers (Python's `str(int)`).
 */
module Text {

  /** Python's `str.lower()` restricted to ASCII: 'A'..'Z' map to 'a'..'z', every other character is kept. */
  function LowerChar(c: char): char {
    if 'A' <= c <= 'Z' then (c as int + 32) as char else c
  }

  function Lower(s: string): string {
    seq(|s|, i requires 0 <= i < |s| => LowerChar(s[i]))
  }

  lemma LowerConcat(a: string, b: string)
    ensures Lower(a + b) == Lower(a) + Lower(b)
  {
    assert forall i :: 0 <= i < |a + b| ==> Lower(a + b)[i] == (Lower(a) + Lower(b))[i];
  }

  /** `p` occurs in `s` at index `i`. */
  predicate MatchAt(s: string, p: string, i: int) {
    0 <= i && i + |p| <= |s| && s[i..i + |p|] == p
  }

  /** Python's `p in s` for strings: `p` is a contiguous substring of `s`. */
  predicate Contains(s: string, p: string)
    decreases |s|
  {
    |p| <= |s| && (s[..|p|] == p || Contains(s[1..], p))
  }

  /** The recursive search finds `p` exactly when `p` occurs at some index of `s`. */
  lemma {:induction false} ContainsIff(s: string, p: string)
    ensures Contains(s, p) <==> exists i :: MatchAt(s, p, i)
    decreases |s|
  {
    if |p| <= |s| && s[..|p|] != p {
      ContainsIff(s[1..], p);
      if Contains(s[1..], p) {
        var j :| MatchAt(s[1..], p, j);
        assert s[j + 1..j + 1 + |p|] == s[1..][j..j + |p|];
        assert MatchAt(s, p, j + 1);
      }
      if i :| MatchAt(s, p, i) {
        assert i != 0;
        assert s[1..][i - 1..i - 1 + |p|] == s[i..i + |p|];
        assert MatchAt(s[1..], p, i - 1);
      }
    } else if |p| <= |s| {
      assert MatchAt(s, p, 0);
    }
  }

  /** If some character of `p` never occurs in `s`, then `p` is not a substring of `s`. */
  lemma MissingCharNotContained(s: string, p: string, j: int)
    requires 0 <= j < |p| && p[j] !in s
    ensures !Contains(s, p)
  {
    ContainsIff(s, p);
  }

  /** An occurrence in `a + b` lies in `a`, lies in `b`, or straddles the border and so contains `b[0]`. */
  lemma ContainsConcat(a: string, b: string, p: string)
    requires Contains(a + b, p)
    ensures Contains(a, p) || Contains(b, p) || (|b| > 0 && b[0] in p)
  {
    ContainsIff(a + b, p);
    ContainsIff(a, p);
    ContainsIff(b, p);
    var i :| MatchAt(a + b, p, i);
    if i + |p| <= |a| {
      assert (a + b)[i..i + |p|] == a[i..i + |p|];
      assert MatchAt(a, p, i);
    } else if i >= |a| {
      assert (a + b)[i..i + |p|] == b[i - |a|..i - |a| + |p|];
      assert MatchAt(b, p, i - |a|);
    } else {
      assert (a + b)[i..i + |p|][|a| - i] == (a + b)[|a|];
      assert p[|a| - i] == b[0];
    }
  }

  /** An occurrence in a prefix is an occurrence in the whole string. */
  lemma ContainsInPrefix(s: string, k: nat, p: string)
    requires k <= |s| && Contains(s[..k], p)
    ensures Contains(s, p)
  {
    ContainsIff(s[..k], p);
    ContainsIff(s, p);
    var i :| MatchAt(s[..k], p, i);
    assert s[..k][i..i + |p|] == s[i..i + |p|];
    assert MatchAt(s, p, i);
  }

  predicate StartsWith(s: string, prefix: string) {
    |prefix| <= |s| && s[..|prefix|] == prefix
  }

  /** Python's `s.endswith(suffix)`. */
  predicate EndsWith(s: string, suffix: string) {
    |suffix| <= |s| && s[|s| - |suffix|..] == suffix
  }

  /** Python's `sep.join(xs)`. */
  function Join(xs: seq<string>, sep: string): string
    decreases |xs|
  {
    if |xs| == 0 then "" else if |xs| == 1 then xs[0] else xs[0] + sep + Join(xs[1..], sep)
  }

  /** A non-empty join starts with its first piece. */
  lemma JoinStartsWithFirst(xs: seq<string>, sep: string)
    requires |xs| > 0
    ensures StartsWith(Join(xs, sep), xs[0])
  {
    if |xs| > 1 {
      assert Join(xs, sep)[..|xs[0]|] == xs[0];
    }
  }

  /** A string occurs in any string that ends with it. */
  lemma ContainsSuffix(prefix: string, s: string)
    ensures Contains(prefix + s, s)
  {
    ContainsIff(prefix + s, s);
    assert (prefix + s)[|prefix|..|prefix| + |s|] == s;
    assert MatchAt(prefix + s, s, |prefix|);
  }

  /** A string occurs in any string built around it. */
  lemma ContainsMiddle(a: string, s: string, b: string)
    ensures Contains(a + s + b, s)
  {
    ContainsIff(a + s + b, s);
    assert (a + s + b)[|a|..|a| + |s|] == s;
    assert MatchAt(a + s + b, s, |a|);
  }

  /** Total length of the pieces. */
  function TotalLength(xs: seq<string>): nat
    decreases |xs|
  {
    if |xs| == 0 then 0 else |xs[0]| + TotalLength(xs[1..])
  }

  /** Joining appends pieces in order: the last piece comes after the separator that follows the rest. */
  lemma {:induction false} JoinSnoc(xs: seq<string>, x: string, sep: string)
    requires |xs| > 0
    ensures Join(xs + [x], sep) == Join(xs, sep) + sep + x
    decreases |xs|
  {
    if |xs| == 1 {
      assert xs + [x] == [xs[0], x];
    } else {
      assert (xs + [x])[1..] == xs[1..] + [x];
      JoinSnoc(xs[1..], x, sep);
    }
  }

  /** A non-empty join is the pieces plus one separator between each neighbouring pair. */
  lemma {:induction false} JoinLength(xs: seq<string>, sep: string)
    requires |xs| > 0
    ensures |Join(xs, sep)| == TotalLength(xs) + (|xs| - 1) * |sep|
    decreases |xs|
  {
    if |xs| > 1 {
      JoinLength(xs[1..], sep);
    }
  }

  function DigitChar(d: nat): char
    requires d < 10
  {
    ('0' as int + d) as char
  }

  predicate IsDigit(c: char) {
    '0' <= c <= '9'
  }

  /** Python's `str(n)` for a natural number: decimal digits, no leading zero. */
  function NatToString(n: nat): (r: string)
    ensures |r| > 0
    ensures forall i :: 0 <= i < |r| ==> IsDigit(r[i])
    ensures n > 0 ==> r[0] != '0'
    decreases n
  {
    if n < 10 then [DigitChar(n)] else NatToString(n / 10) + [DigitChar(n % 10)]
  }

  /** Python's `str(i)` for an integer. */
  function IntToString(i: int): (r: string)
    ensures |r| > 0
    ensures i < 0 <==> r[0] == '-'
  {
    if i < 0 then "-" + NatToString(-i) else NatToString(i)
  }

  /** Reads a string of decimal digits back as a number. */
  function ParseDigits(s: string): int
    requires forall i :: 0 <= i < |s| ==> IsDigit(s[i])
    decreases |s|
  {
    if |s| == 0 then 0 else ParseDigits(s[..|s| - 1]) * 10 + (s[|s| - 1] as int - '0' as int)
  }

  /** The decimal rendering of a natural number reads back as that number. */
  lemma {:induction false} NatToStringRoundTrip(n: nat)
    ensures ParseDigits(NatToString(n)) == n
    decreases n
  {
    var r := NatToString(n);
    if n >= 10 {
      NatToStringRoundTrip(n / 10);
      assert r[..|r| - 1] == NatToString(n / 10);
    }
  }

  /** Distinct natural numbers render differently. */
  lemma NatToStringInjective(m: nat, n: nat)
    requires NatToString(m) == NatToString(n)
    ensures m == n
  {
    NatToStringRoundTrip(m);
    NatToStringRoundTrip(n);
  }
}
