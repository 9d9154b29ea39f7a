/** String operations the pipeline relies on: Python's `str.lower`, the
    substring test `p in s`, `str.startswith`, the text after the last
    underscore, and `int(...)` / `str(...)` on decimal numbers. */
module Text {

  import opened Outcomes

  predicate IsUpper(c: char) { 'A' <= c <= 'Z' }

  function LowerChar(c: char): char
  {
    if IsUpper(c) then (c as int + 32) as char else c
  }

  /** `s.lower()` restricted to ASCII letters. */
  function Lower(s: string): (r: string)
    ensures |r| == |s|
    ensures forall i :: 0 <= i < |s| ==> r[i] == LowerChar(s[i])
  {
    if s == [] then [] else [LowerChar(s[0])] + Lower(s[1..])
  }

  predicate HasUpper(s: string)
  {
    exists i :: 0 <= i < |s| && IsUpper(s[i])
  }

  /** Python's `p in s` for strings: `p` occurs as a contiguous substring. */
  predicate Contains(s: string, p: string)
  {
    p <= s || (|s| > 0 && Contains(s[1..], p))
  }

  lemma {:induction false} LowerHasNoUpper(s: string)
    ensures !HasUpper(Lower(s))
  {
    var r := Lower(s);
    forall i | 0 <= i < |r| ensures !IsUpper(r[i]) {
      assert r[i] == LowerChar(s[i]);
    }
  }

  /** A substring occurrence at a given offset makes `Contains` true. */
  lemma {:induction false} ContainsAt(s: string, p: string, i: nat)
    requires i + |p| <= |s| && s[i..i + |p|] == p
    ensures Contains(s, p)
  {
    if i == 0 {
      assert p == s[..|p|];
    } else {
      assert s[1..][i - 1..i - 1 + |p|] == s[i..i + |p|];
      ContainsAt(s[1..], p, i - 1);
    }
  }

  /** Every occurrence found by `Contains` sits at some offset. */
  lemma {:induction false} ContainsWitness(s: string, p: string) returns (i: nat)
    requires Contains(s, p)
    ensures i + |p| <= |s| && s[i..i + |p|] == p
  {
    if p <= s {
      i := 0;
      assert s[..|p|] == p;
    } else {
      var j := ContainsWitness(s[1..], p);
      i := j + 1;
      assert s[1..][j..j + |p|] == s[i..i + |p|];
    }
  }

  /** Substring is transitive: a string containing `p` contains every substring of `p`. */
  lemma {:induction false} ContainsTransitive(s: string, p: string, q: string)
    requires Contains(s, p) && Contains(p, q)
    ensures Contains(s, q)
  {
    var i := ContainsWitness(s, p);
    var j := ContainsWitness(p, q);
    forall k | 0 <= k < |q| ensures s[i + j..i + j + |q|][k] == q[k] {
      assert q[k] == p[j..j + |q|][k] == p[j + k];
      assert p[j + k] == s[i..i + |p|][j + k] == s[i + j + k];
    }
    assert s[i + j..i + j + |q|] == q;
    ContainsAt(s, q, i + j);
  }

  /** A string containing `p` contains `p`'s prefix `a` and its suffix `b`. */
  lemma ContainsParts(s: string, p: string, a: string, b: string)
    requires Contains(s, p) && a <= p && |b| <= |p| && p[|p| - |b|..] == b
    ensures Contains(s, a) && Contains(s, b)
  {
    assert p[0..|a|] == a;
    ContainsAt(p, a, 0);
    ContainsTransitive(s, p, a);
    ContainsAt(p, b, |p| - |b|);
    ContainsTransitive(s, p, b);
  }

  /** A pattern holding an upper-case letter never occurs in a string without one;
      in particular it never occurs in a lower-cased name. */
  lemma {:induction false} UpperPatternNeverInLowered(name: string, p: string)
    requires HasUpper(p)
    ensures !Contains(Lower(name), p)
  {
    LowerHasNoUpper(name);
    if Contains(Lower(name), p) {
      ContainsUpper(Lower(name), p);
    }
  }

  lemma {:induction false} ContainsUpper(s: string, p: string)
    requires Contains(s, p) && HasUpper(p)
    ensures HasUpper(s)
  {
    var i := ContainsWitness(s, p);
    var k :| 0 <= k < |p| && IsUpper(p[k]);
    assert p[k] == s[i + k];
  }

  /** Every character of an occurring pattern occurs in the string. */
  lemma ContainsCharOf(s: string, p: string, k: nat)
    requires Contains(s, p) && k < |p|
    ensures p[k] in s
  {
    var i := ContainsWitness(s, p);
    assert s[i + k] == p[k];
  }

  /** A pattern holding a character the string lacks does not occur in it. */
  lemma MissingCharRulesOut(s: string, p: string, k: nat)
    requires k < |p| && p[k] !in s
    ensures !Contains(s, p)
  {
    if Contains(s, p) {
      ContainsCharOf(s, p, k);
    }
  }

  /** Lower-casing produces a lower-case letter only from that letter or its
      upper-case form. */
  lemma LowerMissingLetter(s: string, c: char)
    requires 'a' <= c <= 'z'
    requires c !in s && (c as int - 32) as char !in s
    ensures c !in Lower(s)
  {
    var r := Lower(s);
    forall i | 0 <= i < |r| ensures r[i] != c {
      assert r[i] == LowerChar(s[i]);
    }
  }

  /** A pattern without upper-case letters that occurs in a string still
      occurs after lower-casing. */
  lemma {:induction false} LowerKeepsPattern(s: string, p: string, k: nat)
    requires k + |p| <= |s| && s[k..k + |p|] == p && !HasUpper(p)
    ensures Contains(Lower(s), p)
  {
    var l := Lower(s);
    forall d | 0 <= d < |p| ensures l[k..k + |p|][d] == p[d] {
      assert s[k + d] == s[k..k + |p|][d];
      assert !IsUpper(p[d]);
    }
    assert l[k..k + |p|] == p;
    ContainsAt(l, p, k);
  }

  // ----- decimal numbers -----

  predicate IsDigit(c: char) { '0' <= c <= '9' }

  predicate AllDigits(s: string)
  {
    forall i :: 0 <= i < |s| ==> IsDigit(s[i])
  }

  /** Value of a string of decimal digits, most significant first. */
  function DigitsValue(s: string): nat
    requires AllDigits(s)
  {
    if s == [] then 0 else DigitsValue(s[..|s| - 1]) * 10 + (s[|s| - 1] as int - '0' as int)
  }

  /** Python's `int(t)` on an optional sign followed by one or more ASCII digits;
      anything else is `None` (Python raises `ValueError`). */
  function ParseInt(t: string): (r: Option<int>)
    ensures r.Some? <==> (|t| > 0 && AllDigits(t)) ||
                         (|t| > 1 && (t[0] == '-' || t[0] == '+') && AllDigits(t[1..]))
  {
    if |t| > 0 && AllDigits(t) then Some(DigitsValue(t))
    else if |t| > 1 && t[0] == '-' && AllDigits(t[1..]) then Some(-(DigitsValue(t[1..]) as int))
    else if |t| > 1 && t[0] == '+' && AllDigits(t[1..]) then Some(DigitsValue(t[1..]))
    else None
  }

  function DigitChar(d: nat): char
    requires d < 10
  {
    ('0' as int + d) as char
  }

  /** Python's `str(n)` for a natural number: no leading zeros. */
  function NatToString(n: nat): (r: string)
    ensures |r| > 0 && AllDigits(r)
    ensures |r| > 1 ==> r[0] != '0'
    decreases n
  {
    if n < 10 then [DigitChar(n)] else NatToString(n / 10) + [DigitChar(n % 10)]
  }

  /** Python's `str(n)` for an integer. */
  function IntToString(n: int): string
  {
    if n < 0 then "-" + NatToString(-n) else NatToString(n)
  }

  lemma {:induction false} NatToStringRoundTrip(n: nat)
    ensures DigitsValue(NatToString(n)) == n
    decreases n
  {
    var s := NatToString(n);
    if n >= 10 {
      NatToStringRoundTrip(n / 10);
      assert s[..|s| - 1] == NatToString(n / 10);
    }
  }

  /** A run of `'0'` characters is worth zero. */
  lemma {:induction false} ZerosValue(z: string)
    requires forall k :: 0 <= k < |z| ==> z[k] == '0'
    ensures AllDigits(z) && DigitsValue(z) == 0
  {
    if z != [] {
      ZerosValue(z[..|z| - 1]);
    }
  }

  /** Leading zeros do not change the value of a digit string. */
  lemma {:induction false} LeadingZerosValue(z: string, d: string)
    requires forall k :: 0 <= k < |z| ==> z[k] == '0'
    requires AllDigits(d)
    ensures AllDigits(z + d) && DigitsValue(z + d) == DigitsValue(d)
  {
    if d == [] {
      assert z + d == z;
      ZerosValue(z);
    } else {
      LeadingZerosValue(z, d[..|d| - 1]);
      assert (z + d)[..|z + d| - 1] == z + d[..|d| - 1];
    }
  }

  /** `int()` of a sign, any number of leading zeros and the digits of `n`
      gives back `n` with that sign. */
  lemma ParseIntPadded(zeros: string, n: nat)
    requires forall k :: 0 <= k < |zeros| ==> zeros[k] == '0'
    ensures ParseInt(zeros + NatToString(n)) == Some(n)
    ensures ParseInt("+" + zeros + NatToString(n)) == Some(n)
    ensures ParseInt("-" + zeros + NatToString(n)) == Some(-(n as int))
  {
    var d := zeros + NatToString(n);
    LeadingZerosValue(zeros, NatToString(n));
    NatToStringRoundTrip(n);
    var plus, minus := "+" + zeros + NatToString(n), "-" + zeros + NatToString(n);
    assert plus[0] == '+' && plus[1..] == d;
    assert minus[0] == '-' && minus[1..] == d;
  }

  /** `int(str(n)) == n`. */
  lemma IntToStringRoundTrip(n: int)
    ensures ParseInt(IntToString(n)) == Some(n)
  {
    if n < 0 {
      NatToStringRoundTrip(-n);
      assert IntToString(n)[1..] == NatToString(-n);
    } else {
      NatToStringRoundTrip(n);
    }
  }

  /** `"_" in s`. */
  predicate HasUnderscore(s: string) { '_' in s }

  /** `s.split("_")[-1]`: the text after the last underscore (all of `s` when it has none). */
  function LastSegment(s: string): (r: string)
    ensures |r| <= |s| && r == s[|s| - |r|..]
    ensures '_' !in r
    ensures |r| < |s| ==> s[|s| - |r| - 1] == '_'
  {
    if s == [] then []
    else if s[|s| - 1] == '_' then []
    else LastSegment(s[..|s| - 1]) + [s[|s| - 1]]
  }
}
