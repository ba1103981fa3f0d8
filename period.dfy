/**
 * The period key under which a month's figures are stored:
 * `str(year) + "_" + month`, where `str` is Python's decimal rendering of
 * an integer (a leading '-' for negative numbers, no leading zeros).
 */
module Period {

  predicate IsDigit(c: char) {
    '0' <= c <= '9'
  }

  function DigitChar(d: nat): (c: char)
    requires d < 10
    ensures IsDigit(c)
  {
    (d + '0' as int) as char
  }

  /** The decimal digits of `n`, most significant first. */
  function NatToDecimal(n: nat): (s: string)
    ensures |s| >= 1
    ensures forall i :: 0 <= i < |s| ==> IsDigit(s[i])
  {
    if n < 10 then [DigitChar(n)] else NatToDecimal(n / 10) + [DigitChar(n % 10)]
  }

  /** `str(n)` for a Python int. */
  function IntToDecimal(n: int): (s: string)
    ensures |s| >= 1
    ensures forall i :: 0 <= i < |s| ==> IsDigit(s[i]) || s[i] == '-'
  {
    if n < 0 then "-" + NatToDecimal(-n) else NatToDecimal(n)
  }

  function DigitValue(c: char): nat
    requires IsDigit(c)
  {
    c as int - '0' as int
  }

  /** The number a string of decimal digits denotes: the inverse of `NatToDecimal`. */
  function DecimalValue(s: string): nat
    requires forall i :: 0 <= i < |s| ==> IsDigit(s[i])
  {
    if s == [] then 0
    else 10 * DecimalValue(s[..|s| - 1]) + DigitValue(s[|s| - 1])
  }

  /** Reading back the digits `NatToDecimal` writes gives the number again. */
  lemma {:induction false} DecimalRoundTrip(n: nat)
    ensures DecimalValue(NatToDecimal(n)) == n
  {
    var s := NatToDecimal(n);
    if n >= 10 {
      DecimalRoundTrip(n / 10);
      assert s[..|s| - 1] == NatToDecimal(n / 10);
    }
  }

  /** Different integers are rendered as different strings. */
  lemma IntToDecimalInjective(a: int, b: int)
    requires IntToDecimal(a) == IntToDecimal(b)
    ensures a == b
  {
    var s := IntToDecimal(a);
    assert (a < 0) == (s[0] == '-') && (b < 0) == (s[0] == '-');
    if a < 0 && b < 0 {
      assert NatToDecimal(-a) == s[1..] == NatToDecimal(-b);
      DecimalRoundTrip(-a);
      DecimalRoundTrip(-b);
    } else if a >= 0 && b >= 0 {
      DecimalRoundTrip(a);
      DecimalRoundTrip(b);
    }
  }

  /** The storage key of the period `month` of `year`. */
  function PeriodKey(year: int, month: string): (key: string)
    ensures |key| > |IntToDecimal(year)| && key[|IntToDecimal(year)|] == '_'
  {
    IntToDecimal(year) + "_" + month
  }

  /**
   * Two periods share a key exactly when they are the same period: the
   * rendered year holds no '_', so the first '_' of a key separates the
   * year from the month, whatever the month string is.
   */
  lemma PeriodKeyInjective(y1: int, m1: string, y2: int, m2: string)
    ensures PeriodKey(y1, m1) == PeriodKey(y2, m2) <==> y1 == y2 && m1 == m2
  {
    var s1, s2 := IntToDecimal(y1), IntToDecimal(y2);
    var k := PeriodKey(y1, m1);
    if k == PeriodKey(y2, m2) {
      if |s1| == |s2| {
        assert s1 == k[..|s1|] == s2;
        assert m1 == k[|s1| + 1..] == m2;
        IntToDecimalInjective(y1, y2);
      }
    }
  }
}
