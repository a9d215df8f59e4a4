/** The text C# produces for `int.ToString()` and `bool.ToString()` (invariant
    culture), with parsers that read that text back. */
module Decimal {
  import opened Outcomes

  predicate IsDigit(c: char) {
    '0' <= c <= '9'
  }

  function DigitChar(d: nat): (c: char)
    requires d < 10
    ensures IsDigit(c) && c as int - '0' as int == d
  {
    ('0' as int + d) as char
  }

  /** Decimal digits of `n`, most significant first, without leading zeros. */
  function NatToString(n: nat): (s: string)
    ensures |s| >= 1
    ensures forall i :: 0 <= i < |s| ==> IsDigit(s[i])
    ensures s[0] == '0' ==> n == 0
    decreases n
  {
    if n < 10 then [DigitChar(n)] else NatToString(n / 10) + [DigitChar(n % 10)]
  }

  /** The value of a non-empty string of decimal digits; None for any other text. */
  function ParseNat(s: string): (r: Option<nat>)
    ensures r.Some? <==> |s| >= 1 && forall i :: 0 <= i < |s| ==> IsDigit(s[i])
    decreases |s|
  {
    if |s| == 0 || !IsDigit(s[|s| - 1]) then None
    else if |s| == 1 then Some(s[0] as int - '0' as int)
    else match ParseNat(s[..|s| - 1])
      case None => None
      case Some(high) => Some(high * 10 + (s[|s| - 1] as int - '0' as int))
  }

  /** Reading back the digits of a number gives the number. */
  lemma {:induction false} ParseNatToString(n: nat)
    ensures ParseNat(NatToString(n)) == Some(n)
    decreases n
  {
    if n >= 10 {
      var s := NatToString(n);
      var high := NatToString(n / 10);
      assert s == high + [DigitChar(n % 10)];
      assert s[..|s| - 1] == high;
      ParseNatToString(n / 10);
    }
  }

  /** C#'s `int.ToString()`: a minus sign before the digits of a negative value. */
  function IntToString(i: int): (s: string)
    ensures |s| >= 1
    ensures i < 0 <==> s[0] == '-'
  {
    if i < 0 then "-" + NatToString(-i) else NatToString(i)
  }

  function ParseInt(s: string): Option<int> {
    if |s| >= 1 && s[0] == '-' then
      match ParseNat(s[1..])
      case None => None
      case Some(n) => var v: int := -(n as int); Some(v)
    else
      match ParseNat(s)
      case None => None
      case Some(n) => var v: int := n; Some(v)
  }

  /** Reading back the text of an `int` gives the `int`. */
  lemma ParseIntToString(i: int)
    ensures ParseInt(IntToString(i)) == Some(i)
  {
    var s := IntToString(i);
    if i < 0 {
      assert s[1..] == NatToString(-i);
      ParseNatToString(-i);
    } else {
      ParseNatToString(i);
      assert s[0] != '-';
    }
  }

  /** C#'s `bool.ToString()`, which is capitalised. */
  function BoolToString(b: bool): (r: string)
    ensures r == "True" || r == "False"
    ensures r == "True" <==> b
  {
    if b then "True" else "False"
  }

  function ParseBool(s: string): Option<bool> {
    if s == "True" then Some(true) else if s == "False" then Some(false) else None
  }

  lemma ParseBoolToString(b: bool)
    ensures ParseBool(BoolToString(b)) == Some(b)
  {
  }
}
