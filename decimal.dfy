/**
 * Decimal rendering of integers, as Python's `str(int)` does it (a leading
 * minus sign for negative values, no leading zeros), and a parser that is its
 * inverse.
 */
module Decimal {
  import opened Wrappers

  predicate IsDigit(c: char) {
    '0' <= c <= '9'
  }

  function DigitChar(d: int): (c: char)
    requires 0 <= d < 10
    ensures IsDigit(c) && (c as int) - ('0' as int) == d
  {
    ('0' as int + d) as char
  }

  /** Decimal digits of a natural number, most significant first. */
  function NatToString(n: nat): (s: string)
    ensures |s| >= 1
    ensures forall i :: 0 <= i < |s| ==> IsDigit(s[i])
    ensures s[0] == '0' ==> n == 0 && s == "0"
    decreases n
  {
    if n < 10 then [DigitChar(n)] else NatToString(n / 10) + [DigitChar(n % 10)]
  }

  /** Python's `str(i)` for an int `i`. */
  function IntToString(i: int): (s: string)
    ensures |s| >= 1 && (IsDigit(s[0]) || s[0] == '-')
    ensures (s[0] == '-') <==> i < 0
    ensures s[0] == '-' ==> |s| >= 2 && IsDigit(s[1]) && s[1] != '0'
    ensures s[0] == '0' ==> s == "0"
  {
    if i < 0 then "-" + NatToString(-i) else NatToString(i)
  }

  /** The value of a non-empty string of decimal digits; None for anything else. */
  function ParseNat(s: string): (r: Option<nat>)
    ensures r.Some? ==> |s| >= 1
    decreases |s|
  {
    if |s| == 0 || !IsDigit(s[|s| - 1]) then None
    else
      var last := (s[|s| - 1] as int) - ('0' as int);
      if |s| == 1 then Some(last)
      else match ParseNat(s[..|s| - 1])
        case None => None
        case Some(v) => Some(10 * v + last)
  }

  /** The value of an optional minus sign followed by decimal digits; None for anything else. */
  function ParseInt(s: string): (r: Option<int>)
    ensures r.Some? ==> |s| >= 1
  {
    if |s| >= 1 && s[0] == '-' then
      match ParseNat(s[1..])
      case None => None
      case Some(v) => Some(-(v as int))
    else
      match ParseNat(s)
      case None => None
      case Some(v) => Some(v as int)
  }

  lemma {:induction false} NatRoundTrip(n: nat)
    ensures ParseNat(NatToString(n)) == Some(n)
    decreases n
  {
    var s := NatToString(n);
    if n >= 10 {
      NatRoundTrip(n / 10);
      assert s[..|s| - 1] == NatToString(n / 10);
    }
  }

  /** Rendering an int and parsing it back gives the int again. */
  lemma RoundTrip(i: int)
    ensures ParseInt(IntToString(i)) == Some(i)
  {
    if i < 0 {
      NatRoundTrip(-i);
      assert IntToString(i)[1..] == NatToString(-i);
    } else {
      NatRoundTrip(i);
    }
  }

  /** Distinct ints render as distinct strings. */
  lemma IntToStringInjective(i: int, j: int)
    ensures IntToString(i) == IntToString(j) ==> i == j
  {
    RoundTrip(i);
    RoundTrip(j);
  }
}
