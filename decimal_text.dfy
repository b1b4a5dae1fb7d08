/**
 * Decimal text of integers: the codec the scheduler uses at its storage boundary.
 *
 * `Date.now().toString()` (the ids of saved schedules and machines) is exactly the
 * decimal text of a millisecond count; a task's due date is written to storage as text
 * and read back with `new Date(text)`. Here that text is the signed decimal form of the
 * day number, so the pair IntToText / TextToInt is the serialize / deserialize pair
 * whose round trip the repository relies on.
 */
module DecimalText {
  import opened Wrappers

  predicate IsDigit(c: char) {
    '0' <= c <= '9'
  }

  function DigitChar(d: nat): (c: char)
    requires d < 10
    ensures IsDigit(c)
  {
    ('0' as int + d) as char
  }

  function DigitValue(c: char): (d: nat)
    requires IsDigit(c)
    ensures d < 10
  {
    c as int - '0' as int
  }

  /** Decimal digits of `n`, most significant first, without leading zeros. */
  function NatToText(n: nat): (s: string)
    ensures |s| > 0
    ensures forall i :: 0 <= i < |s| ==> IsDigit(s[i])
    ensures |s| > 1 ==> s[0] != '0'
  {
    if n < 10 then [DigitChar(n)] else NatToText(n / 10) + [DigitChar(n % 10)]
  }

  /** Reads a non-empty run of decimal digits; anything else is None. */
  function TextToNat(s: string): (r: Option<nat>)
    ensures r.Some? ==> |s| > 0 && forall i :: 0 <= i < |s| ==> IsDigit(s[i])
  {
    if |s| == 0 || !IsDigit(s[|s| - 1]) then None
    else if |s| == 1 then Some(DigitValue(s[0]))
    else
      match TextToNat(s[..|s| - 1])
      case None => None
      case Some(p) => Some(p * 10 + DigitValue(s[|s| - 1]))
  }

  lemma {:induction false} NatRoundTrip(n: nat)
    ensures TextToNat(NatToText(n)) == Some(n)
  {
    if n >= 10 {
      var s := NatToText(n);
      assert s[..|s| - 1] == NatToText(n / 10);
      NatRoundTrip(n / 10);
    }
  }

  /** Signed decimal text: a leading '-' for negative numbers. */
  function IntToText(n: int): (s: string)
    ensures |s| > 0
    ensures s[0] == '-' <==> n < 0
  {
    if n < 0 then "-" + NatToText(-n) else NatToText(n)
  }

  function TextToInt(s: string): (r: Option<int>)
    ensures |s| == 0 ==> r == None
  {
    if |s| > 0 && s[0] == '-' then
      match TextToNat(s[1..])
      case None => None
      case Some(m) => Some(-(m as int))
    else
      match TextToNat(s)
      case None => None
      case Some(m) => Some(m as int)
  }

  /** Deserializing the serialized form gives back the number. */
  lemma {:induction false} IntRoundTrip(n: int)
    ensures TextToInt(IntToText(n)) == Some(n)
  {
    if n < 0 {
      var s := IntToText(n);
      assert s[1..] == NatToText(-n);
      NatRoundTrip(-n);
    } else {
      NatRoundTrip(n);
    }
  }

  /** Distinct numbers have distinct texts, so distinct clock readings give distinct ids. */
  lemma IntToTextInjective(a: int, b: int)
    ensures IntToText(a) == IntToText(b) <==> a == b
  {
    if IntToText(a) == IntToText(b) {
      IntRoundTrip(a);
      IntRoundTrip(b);
    }
  }
}
