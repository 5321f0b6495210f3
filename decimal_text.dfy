/** Decimal rendering of integers as a JavaScript template literal produces it
    (`${n}`: digits without leading zeros, a leading '-' for negatives), the
    "systolic/diastolic" text built from two of them, and the parsers that
    invert both. */
module DecimalText {
  import opened Wrappers

  predicate IsDigit(c: char)
  {
    '0' <= c <= '9'
  }

  function DigitChar(d: int): (c: char)
    requires 0 <= d < 10
    ensures IsDigit(c)
    ensures DigitValue(c) == d
  {
    (('0' as int) + d) as char
  }

  function DigitValue(c: char): (d: int)
    ensures IsDigit(c) ==> 0 <= d < 10
  {
    (c as int) - ('0' as int)
  }

  /** `${n}` for a non-negative integer n. */
  function NatText(n: nat): (s: string)
    ensures |s| >= 1
    ensures forall i :: 0 <= i < |s| ==> IsDigit(s[i])
    ensures |s| > 1 ==> s[0] != '0'
  {
    if n < 10 then [DigitChar(n)] else NatText(n / 10) + [DigitChar(n % 10)]
  }

  /** `${n}` for any integer n. */
  function IntText(n: int): (s: string)
    ensures |s| >= 1
    ensures '/' !in s
  {
    if n < 0 then "-" + NatText(-n) else NatText(n)
  }

  /** The value of a non-empty string of decimal digits, most significant first. */
  function DigitsValue(s: string): nat
    requires |s| >= 1
    requires forall i :: 0 <= i < |s| ==> IsDigit(s[i])
  {
    if |s| == 1 then DigitValue(s[0]) else 10 * DigitsValue(s[..|s| - 1]) + DigitValue(s[|s| - 1])
  }

  /** Reads back an integer written as optional '-' followed by digits. */
  function ParseInt(s: string): Option<int>
  {
    if |s| >= 2 && s[0] == '-' && (forall i :: 1 <= i < |s| ==> IsDigit(s[i])) then
      var magnitude: int := DigitsValue(s[1..]);
      Some(-magnitude)
    else if |s| >= 1 && (forall i :: 0 <= i < |s| ==> IsDigit(s[i])) then
      Some(DigitsValue(s))
    else
      None
  }

  /** The position of the first occurrence of `c` in `s`, if any. */
  function IndexOf(s: string, c: char): (r: Option<nat>)
    ensures r.Some? ==> r.value < |s| && s[r.value] == c && c !in s[..r.value]
    ensures r.None? ==> c !in s
  {
    if s == [] then None
    else if s[0] == c then Some(0)
    else match IndexOf(s[1..], c)
      case None => None
      case Some(k) => Some(k + 1)
  }

  /** The text `${systolic}/${diastolic}`. */
  function BloodPressureText(systolic: int, diastolic: int): string
  {
    IntText(systolic) + "/" + IntText(diastolic)
  }

  /** Splits a "systolic/diastolic" text at its first '/' and reads both numbers. */
  function ParseBloodPressure(t: string): Option<(int, int)>
  {
    match IndexOf(t, '/')
    case None => None
    case Some(k) =>
      match (ParseInt(t[..k]), ParseInt(t[k + 1..]))
      case (Some(s), Some(d)) => Some((s, d))
      case _ => None
  }

  lemma {:induction false} DigitsValueOfNatText(n: nat)
    ensures DigitsValue(NatText(n)) == n
  {
    if n >= 10 {
      DigitsValueOfNatText(n / 10);
      var s := NatText(n);
      assert s[..|s| - 1] == NatText(n / 10);
    }
  }

  /** Reading back the rendering of any integer gives the integer. */
  lemma IntTextRoundTrip(n: int)
    ensures ParseInt(IntText(n)) == Some(n)
  {
    if n < 0 {
      DigitsValueOfNatText(-n);
      var s := IntText(n);
      assert s[1..] == NatText(-n);
    } else {
      DigitsValueOfNatText(n);
    }
  }

  /** The blood-pressure text determines both of its numbers. */
  lemma BloodPressureRoundTrip(systolic: int, diastolic: int)
    ensures ParseBloodPressure(BloodPressureText(systolic, diastolic)) == Some((systolic, diastolic))
  {
    var a, b := IntText(systolic), IntText(diastolic);
    var t := BloodPressureText(systolic, diastolic);
    IndexOfAfterPrefix(a, b, '/');
    assert t[..|a|] == a;
    assert t[|a| + 1..] == b;
    IntTextRoundTrip(systolic);
    IntTextRoundTrip(diastolic);
  }

  lemma {:induction false} IndexOfAfterPrefix(a: string, b: string, c: char)
    requires c !in a
    ensures IndexOf(a + [c] + b, c) == Some(|a|)
  {
    if a != [] {
      IndexOfAfterPrefix(a[1..], b, c);
      assert (a + [c] + b)[1..] == a[1..] + [c] + b;
    }
  }

  /** Two readings that render to the same text are the same reading. */
  lemma BloodPressureTextInjective(s1: int, d1: int, s2: int, d2: int)
    requires BloodPressureText(s1, d1) == BloodPressureText(s2, d2)
    ensures s1 == s2 && d1 == d2
  {
    BloodPressureRoundTrip(s1, d1);
    BloodPressureRoundTrip(s2, d2);
  }
}
