/**
 * Decimal rendering of numbers, as JavaScript does when a number is
 * concatenated to a string (`'output' + 3`), and the facts about it that
 * make the generated layer keys and ids unambiguous.
 */
module Strings {

  predicate IsDigit(c: char) {
    '0' <= c <= '9'
  }

  predicate AllDigits(s: string) {
    forall i :: 0 <= i < |s| ==> IsDigit(s[i])
  }

  function DigitChar(d: nat): (c: char)
    requires d < 10
    ensures IsDigit(c)
    ensures c as int - '0' as int == d
  {
    ('0' as int + d) as char
  }

  /** `'' + n` for a non-negative integer n: its digits, most significant first, without leading zeros. */
  function NatToString(n: nat): (s: string)
    ensures |s| > 0 && AllDigits(s)
    ensures n >= 10 ==> |s| >= 2
    ensures |s| > 1 ==> s[0] != '0'
    decreases n
  {
    if n < 10 then [DigitChar(n)] else NatToString(n / 10) + [DigitChar(n % 10)]
  }

  /** `'' + i` for any integer i. */
  function IntToString(i: int): (s: string)
    ensures |s| > 0
    ensures i >= 0 <==> AllDigits(s)
    ensures forall k :: 0 <= k < |s| ==> IsDigit(s[k]) || s[k] == '-'
  {
    if i < 0 then
      var s := "-" + NatToString(-i);
      assert !IsDigit(s[0]);
      s
    else NatToString(i)
  }

  /** Different numbers render differently. */
  lemma {:induction false} NatToStringInjective(m: nat, n: nat)
    ensures NatToString(m) == NatToString(n) ==> m == n
    decreases m
  {
    if NatToString(m) == NatToString(n) {
      if m < 10 && n < 10 {
        assert NatToString(m)[0] == DigitChar(m);
        assert NatToString(n)[0] == DigitChar(n);
      } else if m >= 10 && n >= 10 {
        var sm, sn := NatToString(m), NatToString(n);
        assert sm[|sm| - 1] == DigitChar(m % 10);
        assert sn[|sn| - 1] == DigitChar(n % 10);
        assert sm[..|sm| - 1] == NatToString(m / 10);
        assert sn[..|sn| - 1] == NatToString(n / 10);
        NatToStringInjective(m / 10, n / 10);
      }
    }
  }

  /**
   * A digit string followed by a tail that starts with a non-digit can be
   * split in only one way: this is why "output" + i + "_..." determines i.
   */
  lemma DigitsThenTagSplit(a: string, b: string, c: string, d: string)
    requires AllDigits(a) && AllDigits(c)
    requires |b| > 0 && !IsDigit(b[0]) && |d| > 0 && !IsDigit(d[0])
    requires a + b == c + d
    ensures a == c && b == d
  {
    var s := a + b;
    assert !IsDigit(s[|a|]) && forall k :: 0 <= k < |a| ==> IsDigit(s[k]);
    assert !IsDigit(s[|c|]) && forall k :: 0 <= k < |c| ==> IsDigit(s[k]);
    assert |a| == |c|;
    assert a == (a + b)[..|a|];
    assert c == (c + d)[..|c|];
    assert b == (a + b)[|a|..];
    assert d == (c + d)[|c|..];
  }

  /** Different integers render differently. */
  lemma IntToStringInjective(i: int, j: int)
    ensures IntToString(i) == IntToString(j) ==> i == j
  {
    if IntToString(i) == IntToString(j) {
      if i >= 0 && j >= 0 {
        NatToStringInjective(i, j);
      } else if i < 0 && j < 0 {
        assert IntToString(i)[1..] == NatToString(-i);
        assert IntToString(j)[1..] == NatToString(-j);
        NatToStringInjective(-i, -j);
      }
    }
  }

  /**
   * Joining with a separator that the left part does not contain can be
   * undone: the first separator marks the join.
   */
  lemma SplitAtSeparator(a: string, b: string, c: string, d: string, sep: char)
    requires sep !in a && sep !in c
    requires a + [sep] + b == c + [sep] + d
    ensures a == c && b == d
  {
    var s := a + [sep] + b;
    assert s[|a|] == sep && forall k :: 0 <= k < |a| ==> s[k] == a[k];
    assert s[|c|] == sep && forall k :: 0 <= k < |c| ==> s[k] == c[k];
    assert |a| == |c|;
    assert a == s[..|a|];
    assert c == (c + [sep] + d)[..|c|];
    assert b == s[|a| + 1..];
    assert d == (c + [sep] + d)[|c| + 1..];
  }
}
