/** Decimal rendering of integers as .NET's Int32.ToString() and the "D2"
    format produce them (invariant culture: a leading '-' for negatives), with a
    reader that recovers the value, so that formatting can be stated as a
    round trip. */
module Numerals {
  import opened Common

  predicate IsDigit(c: char) { '0' <= c <= '9' }

  function DigitChar(d: nat): (c: char)
    requires d < 10
    ensures IsDigit(c)
  {
    (48 + d) as char
  }

  function DigitValue(c: char): (d: nat)
    requires IsDigit(c)
    ensures d < 10 && DigitChar(d) == c
  {
    (c as int - 48) as nat
  }

  /** The shortest decimal numeral of n, no leading zeros. */
  function NatToDecimal(n: nat): (s: string)
    ensures |s| >= 1 && (forall i :: 0 <= i < |s| ==> IsDigit(s[i]))
    ensures n < 10 <==> |s| == 1
  {
    if n < 10 then [DigitChar(n)] else NatToDecimal(n / 10) + [DigitChar(n % 10)]
  }

  /** Int32.ToString(): a '-' sign, then the digits of the magnitude. */
  function IntToDecimal(i: int): string
  {
    if i < 0 then "-" + NatToDecimal(-i) else NatToDecimal(i)
  }

  /** The "D2" format: the magnitude padded with zeros to at least two digits,
      after the sign. */
  function IntToD2(i: int): string
  {
    var magnitude := if i < 0 then -i else i;
    var digits := if magnitude < 10 then "0" + NatToDecimal(magnitude) else NatToDecimal(magnitude);
    if i < 0 then "-" + digits else digits
  }

  /** The value of a string of decimal digits, read most significant first. */
  function DecimalValue(s: string): nat
    requires forall i :: 0 <= i < |s| ==> IsDigit(s[i])
  {
    if s == [] then 0 else DecimalValue(s[..|s| - 1]) * 10 + DigitValue(s[|s| - 1])
  }

  predicate AllDigits(s: string) { forall i :: 0 <= i < |s| ==> IsDigit(s[i]) }

  /** Reads back what IntToDecimal (or IntToD2) writes; None for anything else. */
  function ParseInt(s: string): (r: Option<int>)
  {
    if |s| >= 2 && s[0] == '-' && AllDigits(s[1..]) then Some(0 - DecimalValue(s[1..]) as int)
    else if |s| >= 1 && AllDigits(s) then Some(DecimalValue(s) as int)
    else None
  }

  lemma {:induction false} NatToDecimalRoundTrip(n: nat)
    ensures DecimalValue(NatToDecimal(n)) == n
  {
    if n >= 10 {
      var s := NatToDecimal(n);
      var prefix := NatToDecimal(n / 10);
      assert s == prefix + [DigitChar(n % 10)];
      assert s[..|s| - 1] == prefix;
      NatToDecimalRoundTrip(n / 10);
    }
  }

  /** Reading a decimal numeral back yields the integer it was made from. */
  lemma IntToDecimalRoundTrip(i: int)
    ensures ParseInt(IntToDecimal(i)) == Some(i)
  {
    var m := if i < 0 then -i else i;
    NatToDecimalRoundTrip(m);
    if i < 0 {
      var s := IntToDecimal(i);
      assert s[1..] == NatToDecimal(m);
    }
  }

  /** For a value in [0, 100) the D2 format is exactly two digits: tens, units. */
  lemma D2TwoDigits(n: int)
    requires 0 <= n < 100
    ensures IntToD2(n) == [DigitChar(n / 10), DigitChar(n % 10)]
    ensures AllDigits(IntToD2(n)) && DecimalValue(IntToD2(n)) == n
  {
    var s := IntToD2(n);
    if n >= 10 {
      assert NatToDecimal(n / 10) == [DigitChar(n / 10)];
    }
    assert s[..1] == [DigitChar(n / 10)];
    assert DecimalValue(s[..1]) == n / 10 by {
      assert s[..1][..0] == [];
    }
  }

  /** A decimal numeral never contains a given non-digit separator. */
  lemma NoSeparatorInDecimal(i: int, c: char)
    requires !IsDigit(c) && c != '-'
    ensures c !in IntToDecimal(i) && c !in IntToD2(i)
  {
  }

  /** The position of the first c in s. */
  function IndexOf(s: string, c: char): (i: nat)
    requires c in s
    ensures i < |s| && s[i] == c && c !in s[..i]
  {
    if s[0] == c then 0
    else
      var i := 1 + IndexOf(s[1..], c);
      assert s[..i] == [s[0]] + s[1..][..i - 1];
      i
  }

  /** After a prefix free of c, the first c is the one that follows it. */
  lemma IndexOfAfter(a: string, c: char, b: string)
    requires c !in a
    ensures c in a + [c] + b && IndexOf(a + [c] + b, c) == |a|
  {
    var s := a + [c] + b;
    assert s[|a|] == c;
    assert s[..|a|] == a;
  }
}
