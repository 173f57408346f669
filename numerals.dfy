/**
 * Decimal text to integers and back, as Swift's `Int(_:)` and `Int32(_:)`
 * initialisers read it: an optional '+' or '-', then one or more ASCII digits,
 * and nothing else; a value outside the target width gives nil.
 */
module Numerals {
  import opened Optional

  /** Swift's `Int32`. */
  type int32 = x: int | -0x8000_0000 <= x < 0x8000_0000

  /** Swift's `Int` on a 64-bit device. */
  const Int64Min: int := -0x8000_0000_0000_0000
  const Int64Max: int := 0x7fff_ffff_ffff_ffff
  const Int32Min: int := -0x8000_0000
  const Int32Max: int := 0x7fff_ffff

  predicate IsDigit(c: char) {
    '0' <= c <= '9'
  }

  predicate AllDigits(s: string) {
    forall i :: 0 <= i < |s| ==> IsDigit(s[i])
  }

  function DigitValue(c: char): (d: nat)
    requires IsDigit(c)
    ensures d < 10
  {
    (c as int) - ('0' as int)
  }

  function DigitChar(d: nat): (c: char)
    requires d < 10
    ensures IsDigit(c) && DigitValue(c) == d
  {
    ('0' as int + d) as char
  }

  /** The value of a run of decimal digits, most significant first. */
  function DigitsValue(s: string): nat
    requires AllDigits(s)
  {
    if s == [] then 0 else DigitsValue(s[..|s| - 1]) * 10 + DigitValue(s[|s| - 1])
  }

  /** The text shape Swift's integer initialisers accept, whatever the width. */
  predicate IsIntegerText(s: string) {
    if |s| > 0 && (s[0] == '+' || s[0] == '-') then |s| > 1 && AllDigits(s[1..])
    else |s| > 0 && AllDigits(s)
  }

  /** The mathematical value of integer text, before any width check. */
  function ParseInteger(s: string): (r: Option<int>)
    ensures r.Some? <==> IsIntegerText(s)
    ensures r.Some? && s[0] == '-' ==> r.value <= 0
    ensures r.Some? && s[0] != '-' ==> r.value >= 0
  {
    if |s| > 1 && s[0] == '-' && AllDigits(s[1..]) then Some(-(DigitsValue(s[1..]) as int))
    else if |s| > 1 && s[0] == '+' && AllDigits(s[1..]) then Some(DigitsValue(s[1..]))
    else if |s| > 0 && s[0] != '+' && s[0] != '-' && AllDigits(s) then Some(DigitsValue(s))
    else None
  }

  /** `Int(s)`: 64-bit, nil on malformed text or overflow. */
  function ParseInt(s: string): (r: Option<int>)
    ensures r.Some? <==> ParseInteger(s).Some? && Int64Min <= ParseInteger(s).value <= Int64Max
    ensures r.Some? ==> r == ParseInteger(s)
  {
    match ParseInteger(s)
    case Some(v) => if Int64Min <= v <= Int64Max then Some(v) else None
    case None => None
  }

  /** `Int32(s)`: 32-bit, nil on malformed text or overflow. */
  function ParseInt32(s: string): (r: Option<int32>)
    ensures r.Some? <==> ParseInteger(s).Some? && Int32Min <= ParseInteger(s).value <= Int32Max
    ensures r.Some? ==> r.value as int == ParseInteger(s).value
  {
    match ParseInteger(s)
    case Some(v) => if Int32Min <= v <= Int32Max then Some(v as int32) else None
    case None => None
  }

  /** Decimal digits of a natural number, without leading zeros. */
  function NatToString(n: nat): string
  {
    if n < 10 then [DigitChar(n)] else NatToString(n / 10) + [DigitChar(n % 10)]
  }

  /** The decimal text of an integer, as Swift's string interpolation writes it. */
  function Show(i: int): string
  {
    if i < 0 then "-" + NatToString(-i) else NatToString(i)
  }

  lemma {:induction false} NatToStringDigits(n: nat)
    ensures |NatToString(n)| > 0 && AllDigits(NatToString(n))
    ensures DigitsValue(NatToString(n)) == n
  {
    if n >= 10 {
      NatToStringDigits(n / 10);
      var s := NatToString(n);
      assert s[..|s| - 1] == NatToString(n / 10);
    }
  }

  /** A leading zero does not change the value of a run of digits. */
  lemma {:induction false} LeadingZeroIgnored(d: string)
    requires AllDigits(d)
    ensures AllDigits("0" + d) && DigitsValue("0" + d) == DigitsValue(d)
  {
    if d != [] {
      var z := "0" + d;
      assert z[..|z| - 1] == "0" + d[..|d| - 1];
      assert z[|z| - 1] == d[|d| - 1];
      LeadingZeroIgnored(d[..|d| - 1]);
    }
  }

  /** Plain digits read as their value. */
  lemma DigitsText(d: string)
    requires |d| > 0 && AllDigits(d)
    ensures ParseInteger(d) == Some(DigitsValue(d) as int)
  {
    assert d[0] != '+' && d[0] != '-';
  }

  /** A '+' before digits changes nothing. */
  lemma PlusText(d: string)
    requires |d| > 0 && AllDigits(d)
    ensures ParseInteger("+" + d) == Some(DigitsValue(d) as int)
  {
    var plus := "+" + d;
    assert plus[1..] == d;
  }

  /** A '-' before digits negates their value. */
  lemma MinusText(d: string)
    requires |d| > 0 && AllDigits(d)
    ensures ParseInteger("-" + d) == Some(-(DigitsValue(d) as int))
  {
    var minus := "-" + d;
    assert minus[1..] == d;
  }

  /**
   * Integer text that is not in canonical form still reads as its digits'
   * value: a leading '0' or a leading '+' changes nothing, so `"0080"` and
   * `"+80"` read as 80.
   */
  lemma NonCanonicalText(d: string)
    requires |d| > 0 && AllDigits(d)
    ensures ParseInteger("0" + d) == ParseInteger(d)
    ensures ParseInteger("+" + d) == ParseInteger(d)
  {
    LeadingZeroIgnored(d);
    DigitsText("0" + d);
    DigitsText(d);
    PlusText(d);
  }

  /** Printing an integer and reading it back gives the same integer. */
  lemma ShowRoundTrip(i: int)
    ensures ParseInteger(Show(i)) == Some(i)
  {
    if i < 0 {
      NatToStringDigits(-i);
      assert Show(i)[1..] == NatToString(-i);
    } else {
      NatToStringDigits(i);
    }
  }

  /** Printing a 32-bit value and reading it back with `Int32(_:)` gives the same value. */
  lemma ShowRoundTripInt32(p: int32)
    ensures ParseInt32(Show(p)) == Some(p)
  {
    ShowRoundTrip(p);
  }
}
