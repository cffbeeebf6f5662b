/** The number formatting the exporter relies on, computed on exact
    rationals: `Math.round`, `x.toFixed(2)`, and `String` of a number that
    has at most two decimals. */
module Numbers {
  import opened Json

  /** `Math.round(x)`: the nearest integer, halves rounded up. */
  function RoundHalfUp(x: real): (r: int)
    ensures r as real - 0.5 <= x < r as real + 0.5
  {
    (x + 0.5).Floor
  }

  /** `Math.round(total / n)` computed exactly: the nearest integer to the
      quotient, halves rounded up. */
  function RoundedAverage(total: int, n: int): (avg: int)
    requires n > 0
    ensures n * (2 * avg - 1) <= 2 * total < n * (2 * avg + 1)
  {
    var avg := (2 * total + n) / (2 * n);
    assert 2 * total + n == 2 * n * avg + (2 * total + n) % (2 * n);
    avg
  }

  /** `x.toFixed(2)` counts hundredths: the nearest whole number of
      hundredths, halves rounded away from zero. */
  function Hundredths(x: real): (n: int)
    ensures x >= 0.0 ==> n >= 0
    ensures x <= 0.0 ==> n <= 0
  {
    if x >= 0.0 then RoundHalfUp(x * 100.0) else -RoundHalfUp(-x * 100.0)
  }

  /** `parseFloat(x.toFixed(2))`. */
  function Round2(x: real): real {
    Hundredths(x) as real / 100.0
  }

  /** Rounding to two decimals moves a value by at most half a hundredth. */
  lemma Round2Close(x: real)
    ensures -0.005 <= Round2(x) - x <= 0.005
  {
    var n := Hundredths(x);
    if x >= 0.0 {
      assert n as real - 0.5 <= x * 100.0 < n as real + 0.5;
    } else {
      assert -n as real - 0.5 <= -x * 100.0 < -n as real + 0.5;
    }
  }

  /** Rounding a value that already has two decimals leaves it alone. */
  lemma Round2OfHundredths(n: int)
    ensures Round2(n as real / 100.0) == n as real / 100.0
  {
    var x := n as real / 100.0;
    assert x * 100.0 == n as real;
    if x >= 0.0 {
      assert RoundHalfUp(x * 100.0) == n;
    } else {
      assert -x * 100.0 == (-n) as real;
      assert RoundHalfUp(-x * 100.0) == -n;
    }
  }

  function TwoDigits(n: nat): (s: string)
    requires n < 100
    ensures |s| == 2
  {
    [DigitChar(n / 10), DigitChar(n % 10)]
  }

  /** `x.toFixed(2)`: the sign, the whole part and exactly two decimals. */
  function Fixed2(x: real): (s: string)
    ensures |s| >= 4 && s[|s| - 3] == '.'
  {
    var n := Hundredths(x);
    var m: nat := if n < 0 then -n else n;
    (if x < 0.0 then "-" else "") + NatToString(m / 100) + "." + TwoDigits(m % 100)
  }

  /** `String(n / 100)` for a whole number of hundredths: trailing zero
      decimals and a trailing point are dropped. */
  function DecimalString(n: int): (s: string)
    ensures |s| >= 1
  {
    var m: nat := if n < 0 then -n else n;
    var digits := NatToString(m / 100) +
      (if m % 100 == 0 then "" else if m % 10 == 0 then "." + [DigitChar(m % 100 / 10)] else "." + TwoDigits(m % 100));
    if n < 0 then "-" + digits else digits
  }

  /** A whole number reads without decimals. */
  lemma DecimalStringWhole(k: nat)
    ensures DecimalString(k * 100) == NatToString(k)
  {
    var m: nat := k * 100;
    assert m / 100 == k && m % 100 == 0;
    assert NatToString(k) + "" == NatToString(k);
  }

  /** The text of a whole number of hundredths has a decimal point exactly
      when the number is not whole. */
  lemma DecimalStringPoint(n: int)
    ensures ('.' in DecimalString(n)) <==> n % 100 != 0
  {
    var m: nat := if n < 0 then -n else n;
    var whole := NatToString(m / 100);
    assert '.' !in whole;
    assert m % 100 == 0 <==> n % 100 == 0;
    if m % 100 != 0 {
      var tail := if m % 10 == 0 then "." + [DigitChar(m % 100 / 10)] else "." + TwoDigits(m % 100);
      assert tail[0] == '.';
      assert '.' in whole + tail by {
        assert (whole + tail)[|whole|] == '.';
      }
    }
  }
}
