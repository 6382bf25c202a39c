/** Character classes, decimal rendering of numbers (what Python's `str.format`
    does with an `int` argument) and the string-splitting helpers used to read a
    trigger URL back. */
module Text {

  predicate IsDigit(c: char) {
    '0' <= c <= '9'
  }

  predicate IsUpper(c: char) {
    'A' <= c <= 'Z'
  }

  predicate AllSatisfy(s: string, p: char -> bool) {
    forall i :: 0 <= i < |s| ==> p(s[i])
  }

  function DigitChar(d: nat): (c: char)
    requires d < 10
    ensures IsDigit(c)
  {
    ('0' as int + d) as char
  }

  function DigitValue(c: char): (d: nat)
    requires IsDigit(c)
    ensures d < 10 && DigitChar(d) == c
  {
    (c - '0') as nat
  }

  /** Decimal rendering of a non-negative integer, without leading zeros. */
  function NatToString(n: nat): (s: string)
    ensures |s| > 0 && AllSatisfy(s, IsDigit)
    ensures s[0] == '0' ==> |s| == 1
    ensures n < 10 <==> |s| == 1
  {
    if n < 10 then [DigitChar(n)] else NatToString(n / 10) + [DigitChar(n % 10)]
  }

  /** The number a run of digits denotes (most significant digit first). */
  function DigitsValue(s: string): (n: nat)
    requires AllSatisfy(s, IsDigit)
  {
    if s == [] then 0 else DigitsValue(s[..|s| - 1]) * 10 + DigitValue(s[|s| - 1])
  }

  /** A digit run is canonical when it is what NatToString would produce. */
  predicate Canonical(s: string) {
    |s| > 0 && AllSatisfy(s, IsDigit) && (s[0] == '0' ==> |s| == 1)
  }

  lemma {:induction false} DigitsValueOfNatToString(n: nat)
    ensures DigitsValue(NatToString(n)) == n
  {
    var s := NatToString(n);
    if n >= 10 {
      var front := NatToString(n / 10);
      assert s[..|s| - 1] == front;
      DigitsValueOfNatToString(n / 10);
    }
  }

  lemma {:induction false} NatToStringOfDigitsValue(s: string)
    requires Canonical(s)
    ensures NatToString(DigitsValue(s)) == s
    decreases |s|
  {
    var front := s[..|s| - 1];
    if |s| == 1 {
      assert s == [s[0]];
    } else {
      assert Canonical(front) by {
        assert front[0] == s[0];
        assert forall i :: 0 <= i < |front| ==> front[i] == s[i];
      }
      NatToStringOfDigitsValue(front);
      assert DigitsValue(front) > 0 by {
        if |front| > 1 {
          LeadingDigitPositive(front);
        } else {
          assert front[..0] == [];
        }
      }
      var n := DigitsValue(s);
      assert n / 10 == DigitsValue(front) && n % 10 == DigitValue(s[|s| - 1]);
      assert s == front + [s[|s| - 1]];
    }
  }

  /** A canonical run of two or more digits denotes at least one. */
  lemma LeadingDigitPositive(s: string)
    requires Canonical(s) && |s| > 1
    ensures DigitsValue(s) > 0
  {
    var n := DigitsValue(s);
    if n == 0 {
      NatToStringOfDigitsValueZero(s);
    }
  }

  lemma {:induction false} NatToStringOfDigitsValueZero(s: string)
    requires AllSatisfy(s, IsDigit) && |s| > 0 && DigitsValue(s) == 0
    ensures s[0] == '0'
    decreases |s|
  {
    if |s| > 1 {
      var front := s[..|s| - 1];
      assert AllSatisfy(front, IsDigit) by {
        assert forall i :: 0 <= i < |front| ==> front[i] == s[i];
      }
      NatToStringOfDigitsValueZero(front);
    } else {
      assert DigitChar(0) == '0';
    }
  }

  /** Length of the longest suffix of `s` whose characters all satisfy `p`. */
  function TrailingRun(s: string, p: char -> bool): (k: nat)
    ensures k <= |s|
    ensures AllSatisfy(s[|s| - k..], p)
    ensures k < |s| ==> !p(s[|s| - k - 1])
  {
    if s == [] || !p(s[|s| - 1]) then 0
    else
      var k := TrailingRun(s[..|s| - 1], p);
      assert s[|s| - k - 1..] == s[..|s| - 1][|s| - 1 - k..] + [s[|s| - 1]];
      k + 1
  }

  /** Splitting off the trailing run of `a + b` gives back `a` and `b` when
      `b` satisfies `p` throughout and `a` does not end in such a character. */
  lemma {:induction false} TrailingRunOfConcat(a: string, b: string, p: char -> bool)
    requires a == [] || !p(a[|a| - 1])
    requires AllSatisfy(b, p)
    ensures TrailingRun(a + b, p) == |b|
    decreases |b|
  {
    var s := a + b;
    if b == [] {
      assert s == a;
    } else {
      var b' := b[..|b| - 1];
      assert s[..|s| - 1] == a + b';
      assert AllSatisfy(b', p) by {
        assert forall i :: 0 <= i < |b'| ==> b'[i] == b[i];
      }
      TrailingRunOfConcat(a, b', p);
      assert s[|s| - 1] == b[|b| - 1];
    }
  }

  predicate EndsWith(s: string, suffix: string) {
    |suffix| <= |s| && s[|s| - |suffix|..] == suffix
  }

  predicate StartsWith(s: string, prefix: string) {
    |prefix| <= |s| && s[..|prefix|] == prefix
  }
}
