/** Decimal rendering of non-negative integers, as JavaScript's
    `Number.prototype.toString()` and `String.prototype.padStart` produce it,
    and the parse that reads such text back. */
module Decimal {

  predicate IsDigit(c: char) {
    '0' <= c <= '9'
  }

  predicate AllDigits(s: string) {
    forall i :: 0 <= i < |s| ==> IsDigit(s[i])
  }

  function DigitValue(c: char): (d: nat)
    requires IsDigit(c)
    ensures d < 10
  {
    c as int - '0' as int
  }

  function DigitChar(d: nat): (c: char)
    requires d < 10
    ensures IsDigit(c) && DigitValue(c) == d
  {
    ('0' as int + d) as char
  }

  /** `n.toString()` for a non-negative integer: its digits, most
      significant first, without leading zeros. */
  function FromNat(n: nat): (s: string)
    ensures 1 <= |s| && AllDigits(s)
    ensures s[0] == '0' ==> n == 0 && |s| == 1
    ensures n < 10 ==> |s| == 1
    ensures n < 100 ==> |s| <= 2
  {
    if n < 10 then [DigitChar(n)]
    else FromNat(n / 10) + [DigitChar(n % 10)]
  }

  /** The value of a string of decimal digits (leading zeros allowed). */
  function ToNat(s: string): nat
    requires AllDigits(s)
  {
    if s == [] then 0
    else ToNat(s[..|s| - 1]) * 10 + DigitValue(s[|s| - 1])
  }

  /** Reading back what `FromNat` wrote gives the number again. */
  lemma {:induction false} ToNatFromNat(n: nat)
    ensures ToNat(FromNat(n)) == n
  {
    var s := FromNat(n);
    if n >= 10 {
      ToNatFromNat(n / 10);
      assert s[..|s| - 1] == FromNat(n / 10);
    }
  }

  /** `s.padStart(width, [fill])`: `s` when it is already `width` long,
      otherwise `s` behind enough copies of `fill` to make it `width` long. */
  function PadStart(s: string, width: nat, fill: char): (r: string)
    ensures |r| == if |s| >= width then |s| else width
    ensures r[|r| - |s|..] == s
    ensures forall i :: 0 <= i < |r| - |s| ==> r[i] == fill
  {
    if |s| >= width then s else seq(width - |s|, _ => fill) + s
  }

  /** A number padded to two places is all digits, and exactly two of them below 100. */
  lemma PaddedNumber(n: nat)
    ensures var p := PadStart(FromNat(n), 2, '0');
      |p| >= 2 && AllDigits(p) && (n < 100 ==> |p| == 2)
  {
    var s := FromNat(n);
    var p := PadStart(s, 2, '0');
    forall i | 0 <= i < |p| ensures IsDigit(p[i]) {
      if i >= |p| - |s| {
        assert p[i] == p[|p| - |s|..][i - (|p| - |s|)];
      }
    }
  }

  /** A leading zero does not change the value. */
  lemma {:induction false} ToNatLeadingZero(s: string)
    requires AllDigits(s)
    ensures AllDigits(['0'] + s) && ToNat(['0'] + s) == ToNat(s)
  {
    var t := ['0'] + s;
    if s != [] {
      ToNatLeadingZero(s[..|s| - 1]);
      assert t[..|t| - 1] == ['0'] + s[..|s| - 1];
      assert t[|t| - 1] == s[|s| - 1];
    } else {
      assert t[..|t| - 1] == [];
    }
  }

  /** Padding digits with zeros does not change the value they denote. */
  lemma {:induction false} ToNatPadStart(s: string, width: nat)
    requires AllDigits(s)
    ensures AllDigits(PadStart(s, width, '0'))
    ensures ToNat(PadStart(s, width, '0')) == ToNat(s)
    decreases width
  {
    if |s| < width {
      var r := PadStart(s, width, '0');
      var shorter := PadStart(s, width - 1, '0');
      assert r == ['0'] + shorter;
      ToNatPadStart(s, width - 1);
      ToNatLeadingZero(shorter);
    }
  }

  /** The position of the first `c` in `s`, if there is one (`indexOf`). */
  function IndexOf(s: string, c: char): (r: int)
    ensures -1 <= r < |s|
    ensures 0 <= r ==> s[r] == c && c !in s[..r]
    ensures r == -1 <==> c !in s
  {
    if s == [] then -1
    else if s[0] == c then 0
    else
      var k := IndexOf(s[1..], c);
      assert s == [s[0]] + s[1..];
      if k == -1 then -1 else (assert s[..k + 1] == [s[0]] + s[1..][..k]; k + 1)
  }

  /** The first `c` in `a + [c] + b` is the one after `a` when `a` has none. */
  lemma IndexOfFirst(a: string, c: char, b: string)
    requires c !in a
    ensures IndexOf(a + [c] + b, c) == |a|
  {
    var t := a + [c] + b;
    assert t[|a|] == c;
    assert t[..|a|] == a;
  }

  /** A string of digits holds no other character. */
  lemma DigitsExclude(s: string, c: char)
    requires AllDigits(s) && !IsDigit(c)
    ensures c !in s
  {
  }
}
