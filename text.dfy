/** The few Python string operations the reminder job relies on:
    `str(int)`, `str.replace` and the zero padding of `strftime`. */
module Text {

  predicate IsDigit(c: char) {
    '0' <= c <= '9'
  }

  predicate AllDigits(s: string) {
    forall i :: 0 <= i < |s| ==> IsDigit(s[i])
  }

  function DigitChar(d: nat): (c: char)
    requires d < 10
    ensures IsDigit(c) && DigitValue(c) == d
  {
    ('0' as int + d) as char
  }

  function DigitValue(c: char): (d: nat)
    requires IsDigit(c)
    ensures d < 10
  {
    c as int - '0' as int
  }

  function Pow10(k: nat): (p: nat)
    ensures p >= 1
  {
    if k == 0 then 1 else 10 * Pow10(k - 1)
  }

  /** The value of a string of decimal digits (what Python's `int(s)` gives for it). */
  function DecimalValue(s: string): nat
    requires AllDigits(s)
  {
    if s == [] then 0 else DecimalValue(s[..|s| - 1]) * 10 + DigitValue(s[|s| - 1])
  }

  /** Python's `str(n)` for a natural number: decimal digits without leading zeros. */
  function NatToString(n: nat): (s: string)
    ensures |s| >= 1 && AllDigits(s)
    ensures |s| > 1 ==> s[0] != '0'
  {
    if n < 10 then [DigitChar(n)] else NatToString(n / 10) + [DigitChar(n % 10)]
  }

  lemma {:induction false} NatToStringRoundTrip(n: nat)
    ensures DecimalValue(NatToString(n)) == n
  {
    var s := NatToString(n);
    if n >= 10 {
      assert s[..|s| - 1] == NatToString(n / 10);
      NatToStringRoundTrip(n / 10);
    }
  }

  lemma {:induction false} NatToStringLength(n: nat, k: nat)
    requires 1 <= k && n < Pow10(k)
    ensures |NatToString(n)| <= k
  {
    if n >= 10 {
      NatToStringLength(n / 10, k - 1);
    }
  }

  /** Python's `str(i)` for any integer: a minus sign before the digits of a negative number. */
  function IntToString(i: int): (s: string)
    ensures |s| >= 1
    ensures (s[0] == '-') <==> i < 0
  {
    if i < 0 then "-" + NatToString(-i) else NatToString(i)
  }

  /** Python's `int(s)` on the strings `str` produces. */
  function ParseInt(s: string): int
    requires |s| >= 1
    requires if s[0] == '-' then AllDigits(s[1..]) else AllDigits(s)
  {
    if s[0] == '-' then -(DecimalValue(s[1..]) as int) else DecimalValue(s)
  }

  lemma IntToStringRoundTrip(i: int)
    ensures var s := IntToString(i);
      (if s[0] == '-' then AllDigits(s[1..]) else AllDigits(s)) && ParseInt(s) == i
  {
    var s := IntToString(i);
    if i < 0 {
      assert s[1..] == NatToString(-i);
      NatToStringRoundTrip(-i);
    } else {
      NatToStringRoundTrip(i);
    }
  }

  function Zeros(k: nat): (z: string)
    ensures |z| == k && AllDigits(z)
    ensures forall i :: 0 <= i < k ==> z[i] == '0'
  {
    seq(k, _ => '0')
  }

  /** Left padding with '0' up to width `w`, as `%02d`-style fields do. */
  function PadZeros(s: string, w: nat): (r: string)
    ensures |r| == if |s| >= w then |s| else w
    ensures r[|r| - |s|..] == s
    ensures forall i :: 0 <= i < |r| - |s| ==> r[i] == '0'
  {
    if |s| >= w then s else Zeros(w - |s|) + s
  }

  lemma {:induction false} ZerosValue(k: nat)
    ensures DecimalValue(Zeros(k)) == 0
  {
    if k > 0 {
      assert Zeros(k)[..k - 1] == Zeros(k - 1);
      ZerosValue(k - 1);
    }
  }

  /** Leading zeros do not change the value of a decimal numeral. */
  lemma {:induction false} LeadingZerosValue(k: nat, s: string)
    requires AllDigits(s)
    ensures AllDigits(Zeros(k) + s) && DecimalValue(Zeros(k) + s) == DecimalValue(s)
  {
    var t := Zeros(k) + s;
    if s == [] {
      assert t == Zeros(k);
      ZerosValue(k);
    } else {
      assert t[..|t| - 1] == Zeros(k) + s[..|s| - 1];
      LeadingZerosValue(k, s[..|s| - 1]);
    }
  }

  lemma PadZerosValue(n: nat, w: nat)
    ensures AllDigits(PadZeros(NatToString(n), w))
    ensures DecimalValue(PadZeros(NatToString(n), w)) == n
  {
    var s := NatToString(n);
    NatToStringRoundTrip(n);
    if |s| < w {
      LeadingZerosValue(w - |s|, s);
    }
  }

  /** A number below `10^w`, padded to width `w`, is exactly `w` digits that read back as it. */
  lemma PaddedField(n: nat, w: nat)
    requires 1 <= w && n < Pow10(w)
    ensures var s := PadZeros(NatToString(n), w);
      |s| == w && AllDigits(s) && DecimalValue(s) == n
  {
    NatToStringLength(n, w);
    PadZerosValue(n, w);
  }

  /** `pat` occurs somewhere in `s`. */
  ghost predicate Occurs(s: string, pat: string) {
    exists i :: OccursAt(s, pat, i)
  }

  predicate OccursAt(s: string, pat: string, i: int) {
    0 <= i && i + |pat| <= |s| && s[i..i + |pat|] == pat
  }

  /** Python's `s.replace(pat, rep)` for a non-empty `pat`: every occurrence, scanning from the
      left, without overlaps. */
  function Replace(s: string, pat: string, rep: string): string
    requires |pat| > 0
    decreases |s|
  {
    if |s| < |pat| then s
    else if s[..|pat|] == pat then rep + Replace(s[|pat|..], pat, rep)
    else [s[0]] + Replace(s[1..], pat, rep)
  }

  /** Python's `s.split(pat)` for a non-empty `pat`. */
  function Split(s: string, pat: string): (parts: seq<string>)
    requires |pat| > 0
    ensures |parts| >= 1
    decreases |s|
  {
    if |s| < |pat| then [s]
    else if s[..|pat|] == pat then [""] + Split(s[|pat|..], pat)
    else var t := Split(s[1..], pat); [[s[0]] + t[0]] + t[1..]
  }

  /** Python's `sep.join(parts)`. */
  function Join(parts: seq<string>, sep: string): string
    requires |parts| >= 1
  {
    if |parts| == 1 then parts[0] else parts[0] + sep + Join(parts[1..], sep)
  }

  lemma {:induction false} JoinExtendFirst(c: char, parts: seq<string>, sep: string)
    requires |parts| >= 1
    ensures Join([[c] + parts[0]] + parts[1..], sep) == [c] + Join(parts, sep)
  {
    var q := [[c] + parts[0]] + parts[1..];
    if |parts| > 1 {
      assert q[1..] == parts[1..];
    }
  }

  /** `replace` agrees with splitting at the pattern and joining with the replacement. */
  lemma {:induction false} ReplaceIsSplitJoin(s: string, pat: string, rep: string)
    requires |pat| > 0
    ensures Replace(s, pat, rep) == Join(Split(s, pat), rep)
    decreases |s|
  {
    if |s| < |pat| {
    } else if s[..|pat|] == pat {
      ReplaceIsSplitJoin(s[|pat|..], pat, rep);
      var t := Split(s[|pat|..], pat);
      assert ([""] + t)[1..] == t;
    } else {
      ReplaceIsSplitJoin(s[1..], pat, rep);
      JoinExtendFirst(s[0], Split(s[1..], pat), rep);
    }
  }

  /** The first part of a split is a prefix of the string. */
  lemma {:induction false} SplitFirstIsPrefix(s: string, pat: string)
    requires |pat| > 0
    ensures var p := Split(s, pat)[0]; |p| <= |s| && p == s[..|p|]
    decreases |s|
  {
    if |s| >= |pat| && s[..|pat|] != pat {
      SplitFirstIsPrefix(s[1..], pat);
    }
  }

  /** No part of a split contains the pattern: `split` cuts at every occurrence. */
  lemma {:induction false} SplitPartsFree(s: string, pat: string, k: int)
    requires |pat| > 0 && 0 <= k < |Split(s, pat)|
    ensures !Occurs(Split(s, pat)[k], pat)
    decreases |s|
  {
    var parts := Split(s, pat);
    if |s| < |pat| {
      forall i | 0 <= i ensures !OccursAt(s, pat, i) { }
    } else if s[..|pat|] == pat {
      if k > 0 {
        assert parts[k] == Split(s[|pat|..], pat)[k - 1];
        SplitPartsFree(s[|pat|..], pat, k - 1);
      } else {
        forall i | 0 <= i ensures !OccursAt(parts[0], pat, i) { }
      }
    } else {
      var t := Split(s[1..], pat);
      if k > 0 {
        assert parts[k] == t[k];
        SplitPartsFree(s[1..], pat, k);
      } else {
        var p := parts[0];
        assert p == [s[0]] + t[0];
        SplitFirstIsPrefix(s[1..], pat);
        SplitPartsFree(s[1..], pat, 0);
        forall i | 0 <= i && i + |pat| <= |p|
          ensures !OccursAt(p, pat, i)
        {
          if i == 0 {
            assert p[..|pat|] == s[..|pat|];
          } else {
            assert p[i..i + |pat|] == t[0][i - 1..i - 1 + |pat|];
            assert !OccursAt(t[0], pat, i - 1);
          }
        }
      }
    }
  }

  /** Joining the parts of a split with the pattern gives the string back. */
  lemma SplitJoinRoundTrip(s: string, pat: string)
    requires |pat| > 0
    ensures Join(Split(s, pat), pat) == s
  {
    ReplaceIsSplitJoin(s, pat, pat);
    ReplaceBySelf(s, pat);
  }

  /** A string without the pattern comes back from `replace` unchanged. */
  lemma {:induction false} ReplaceAbsent(s: string, pat: string, rep: string)
    requires |pat| > 0 && !Occurs(s, pat)
    ensures Replace(s, pat, rep) == s
    decreases |s|
  {
    if |s| >= |pat| {
      assert s[0..|pat|] == s[..|pat|];
      assert !OccursAt(s, pat, 0);
      forall i | 0 <= i && i + |pat| <= |s| - 1
        ensures !OccursAt(s[1..], pat, i)
      {
        assert s[1..][i..i + |pat|] == s[i + 1..i + 1 + |pat|];
        assert !OccursAt(s, pat, i + 1);
      }
      ReplaceAbsent(s[1..], pat, rep);
      assert [s[0]] + s[1..] == s;
    }
  }

  /** Replacing a pattern by itself changes nothing. */
  lemma {:induction false} ReplaceBySelf(s: string, pat: string)
    requires |pat| > 0
    ensures Replace(s, pat, pat) == s
    decreases |s|
  {
    if |s| < |pat| {
    } else if s[..|pat|] == pat {
      ReplaceBySelf(s[|pat|..], pat);
      assert pat + s[|pat|..] == s;
    } else {
      ReplaceBySelf(s[1..], pat);
      assert [s[0]] + s[1..] == s;
    }
  }
}
