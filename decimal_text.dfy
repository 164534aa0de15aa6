/**
 * Decimal text of Rust integers, as serde_with's DisplayFromStr writes and
 * reads it: Display on the way out, str::parse (FromStr) on the way in.
 * FromStr accepts one leading '+', a leading '-' only for signed types, then
 * one or more ASCII digits (leading zeros allowed), and fails when the value
 * does not fit the type.
 */
module DecimalText {
  import opened Wrappers

  function DigitChar(d: nat): char
    requires d < 10
  {
    ('0' as int + d) as char
  }

  function DigitValue(c: char): Option<nat>
  {
    if '0' <= c <= '9' then Some(c as int - '0' as int) else None
  }

  predicate IsDigit(c: char)
  {
    '0' <= c <= '9'
  }

  /** Display of a natural number: no sign and no leading zero. */
  function NatText(n: nat): (s: string)
    ensures |s| > 0
  {
    if n < 10 then [DigitChar(n)] else NatText(n / 10) + [DigitChar(n % 10)]
  }

  /** Display of a Rust integer. */
  function IntText(i: int): string
  {
    if i < 0 then "-" + NatText(-i) else NatText(i)
  }

  /** The value of a run of ASCII digits, read most significant first. */
  function DigitsValue(s: string): Option<nat>
  {
    if s == [] then Some(0)
    else
      match (DigitsValue(s[..|s| - 1]), DigitValue(s[|s| - 1]))
      case (Some(v), Some(d)) => Some(v * 10 + d)
      case _ => None
  }

  /** FromStr of a Rust integer type whose values are lo..hi. */
  function ParseInt(s: string, lo: int, hi: int): Option<int>
  {
    if s == [] then None
    else if (s[0] == '+' || s[0] == '-') && |s| == 1 then None
    else
      var negative := s[0] == '-' && lo < 0;
      var digits := if s[0] == '+' || negative then s[1..] else s;
      match DigitsValue(digits)
      case None => None
      case Some(v) =>
        var i: int := if negative then 0 - v as int else v;
        if lo <= i <= hi then Some(i) else None
  }

  lemma {:induction false} NatTextDigits(n: nat)
    ensures forall k :: 0 <= k < |NatText(n)| ==> IsDigit(NatText(n)[k])
  {
    if n >= 10 {
      NatTextDigits(n / 10);
    }
  }

  lemma {:induction false} NatTextValue(n: nat)
    ensures DigitsValue(NatText(n)) == Some(n)
  {
    var s := NatText(n);
    if n < 10 {
      assert s[..0] == [];
    } else {
      NatTextValue(n / 10);
      assert s[..|s| - 1] == NatText(n / 10);
    }
  }

  /** Leading zeros do not change the value of a run of digits. */
  lemma {:induction false} DigitsValueLeadingZero(s: string)
    ensures DigitsValue("0" + s) == DigitsValue(s)
  {
    var t := "0" + s;
    if s == [] {
      assert t[..0] == [];
    } else {
      DigitsValueLeadingZero(s[..|s| - 1]);
      assert t[..|t| - 1] == "0" + s[..|s| - 1];
      assert t[|t| - 1] == s[|s| - 1];
    }
  }

  /** A run of characters has a value exactly when every one of them is a digit. */
  lemma {:induction false} DigitsValueDefined(s: string)
    ensures DigitsValue(s).Some? <==> forall k :: 0 <= k < |s| ==> IsDigit(s[k])
  {
    if s != [] {
      DigitsValueDefined(s[..|s| - 1]);
      assert forall k :: 0 <= k < |s| - 1 ==> s[..|s| - 1][k] == s[k];
    }
  }

  /** Reading the Display text of an in-range integer gives the integer back. */
  lemma IntTextRoundTrip(i: int, lo: int, hi: int)
    requires lo <= i <= hi
    ensures ParseInt(IntText(i), lo, hi) == Some(i)
  {
    var s := IntText(i);
    if i < 0 {
      NatTextValue(-i);
      assert s[1..] == NatText(-i);
      assert s[0] == '-' && |s| > 1;
    } else {
      NatTextValue(i);
      NatTextDigits(i);
      assert IsDigit(s[0]);
    }
  }

  /** An unsigned type (lo >= 0) refuses any text with a minus sign. */
  lemma UnsignedRefusesMinus(t: string, lo: int, hi: int)
    requires lo >= 0
    ensures ParseInt("-" + t, lo, hi) == None
  {
    var s := "-" + t;
    if |s| > 1 {
      DigitsValueDefined(s);
      assert !IsDigit(s[0]);
    }
  }

  /** Whatever FromStr accepts lies within the type's bounds. */
  lemma ParseIntInRange(s: string, lo: int, hi: int)
    requires ParseInt(s, lo, hi).Some?
    ensures lo <= ParseInt(s, lo, hi).value <= hi
  {
  }
}
