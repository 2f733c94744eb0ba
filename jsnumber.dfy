/**
 * The JavaScript number built-ins the source relies on, on exact reals:
 * `Math.max`, `Math.round`, `Number.prototype.toFixed` followed by `parseFloat`,
 * and `Number.prototype.toString(radix)` on integers.
 */
module JsNumber {

  /** `Math.max(a, b)`. */
  function Max(a: real, b: real): (r: real)
    ensures r >= a && r >= b && (r == a || r == b)
  {
    if a >= b then a else b
  }

  /** `Math.round(x)`: the nearest integer, halves rounded towards +infinity. */
  function Round(x: real): (r: int)
    ensures r as real - 0.5 <= x < r as real + 0.5
  {
    (x + 0.5).Floor
  }

  lemma RoundMonotone(x: real, y: real)
    requires x <= y
    ensures Round(x) <= Round(y)
  {
  }

  lemma MultiplyMonotone(x: real, y: real, p: real)
    requires x <= y && p > 0.0
    ensures x * p <= y * p
  {
    assert y * p - x * p == (y - x) * p;
  }

  /**
   * The integer count of `1 / scale` units that `x.toFixed(places)` prints, with its sign,
   * for `scale` = 10^places: toFixed rounds the magnitude, a tie away from zero.
   */
  function FixedUnits(x: real, scale: real): (n: int)
    requires scale > 0.0
    ensures -0.5 <= n as real - x * scale <= 0.5
  {
    if x < 0.0 then -Round(-x * scale) else Round(x * scale)
  }

  lemma {:induction false} FixedUnitsMonotone(x: real, y: real, scale: real)
    requires x <= y && scale > 0.0
    ensures FixedUnits(x, scale) <= FixedUnits(y, scale)
  {
    if x < 0.0 && y < 0.0 {
      MultiplyMonotone(-y, -x, scale);
      RoundMonotone(-y * scale, -x * scale);
    } else if x < 0.0 {
      MultiplyMonotone(0.0, -x, scale);
      MultiplyMonotone(0.0, y, scale);
    } else {
      MultiplyMonotone(x, y, scale);
      RoundMonotone(x * scale, y * scale);
    }
  }

  /** `parseFloat(x.toFixed(2))`: the whole number of cents nearest to x, within half a cent. */
  function ToCents(x: real): (r: real)
    ensures r * 100.0 == FixedUnits(x, 100.0) as real
    ensures -0.005 <= r - x <= 0.005
  {
    FixedUnits(x, 100.0) as real / 100.0
  }

  /** `parseFloat(x.toFixed(1))`: the whole number of tenths nearest to x, within half a tenth. */
  function ToTenths(x: real): (r: real)
    ensures r * 10.0 == FixedUnits(x, 10.0) as real
    ensures -0.05 <= r - x <= 0.05
  {
    FixedUnits(x, 10.0) as real / 10.0
  }

  lemma CentsMonotone(x: real, y: real)
    requires x <= y
    ensures ToCents(x) <= ToCents(y)
  {
    FixedUnitsMonotone(x, y, 100.0);
  }

  lemma TenthsMonotone(x: real, y: real)
    requires x <= y
    ensures ToTenths(x) <= ToTenths(y)
  {
    FixedUnitsMonotone(x, y, 10.0);
  }

  /** Rounding to cents never takes a price of at least one cent below one cent. */
  lemma CentsKeepCent(x: real)
    requires x >= 0.01
    ensures ToCents(x) >= 0.01
  {
    CentsMonotone(0.01, x);
    assert Round(0.01 * 100.0) == 1;
  }

  /** A whole number is its own rounding to cents. */
  lemma CentsWhole(n: nat)
    ensures ToCents(n as real) == n as real
  {
    assert Round(n as real * 100.0) == n * 100;
  }

  /** The character of digit d in `toString(radix)` output: 0-9 then a-f. */
  function DigitChar(d: nat): char
    requires d < 16
  {
    if d < 10 then ('0' as int + d) as char else ('a' as int + d - 10) as char
  }

  /** The value of a digit character, the inverse of DigitChar. */
  function DigitValue(c: char): nat
  {
    if '0' <= c <= '9' then c as int - '0' as int
    else if 'a' <= c <= 'f' then c as int - 'a' as int + 10
    else 0
  }

  lemma DivideStep(n: nat, radix: nat)
    requires 2 <= radix <= n
    ensures 1 <= n / radix < n && 0 <= n % radix < radix
    ensures (n / radix) * radix + n % radix == n
  {
    var q, r := n / radix, n % radix;
    assert 0 <= r < radix && q * radix + r == n;
    PositiveFactor(q, radix);
    ScaleMonotone(2, radix, q);
  }

  lemma PositiveFactor(a: int, k: nat)
    requires a * k > 0
    ensures a > 0
  {
  }

  lemma ScaleMonotone(a: int, b: int, k: nat)
    requires a <= b
    ensures a * k <= b * k
  {
    assert b * k - a * k == (b - a) * k;
  }

  /** `n.toString(radix)` for a non-negative integer: most significant digit first, no leading zeros. */
  function Radix(n: nat, radix: nat): (s: string)
    requires 2 <= radix <= 16
    ensures |s| >= 1
    ensures |s| > 1 ==> s[0] != '0'
    ensures forall i :: 0 <= i < |s| ==> DigitValue(s[i]) < radix && DigitChar(DigitValue(s[i])) == s[i]
    decreases n
  {
    if n < radix then [DigitChar(n)]
    else
      DivideStep(n, radix);
      Radix(n / radix, radix) + [DigitChar(n % radix)]
  }

  /** The value of a digit string read in the given radix. */
  function ParseRadix(s: string, radix: nat): nat
    requires 2 <= radix <= 16
  {
    if s == [] then 0 else ParseRadix(s[..|s| - 1], radix) * radix + DigitValue(s[|s| - 1])
  }

  /** Reading back the rendering of an integer gives the integer. */
  lemma {:induction false} RadixRoundTrip(n: nat, radix: nat)
    requires 2 <= radix <= 16
    ensures ParseRadix(Radix(n, radix), radix) == n
    decreases n
  {
    var s := Radix(n, radix);
    if n >= radix {
      DivideStep(n, radix);
      RadixRoundTrip(n / radix, radix);
      assert s[..|s| - 1] == Radix(n / radix, radix);
    }
  }

  /** `` `${i}` `` / `i.toString(radix)` for any integer: a minus sign before the magnitude. */
  function IntText(i: int, radix: nat): (s: string)
    requires 2 <= radix <= 16
    ensures |s| >= 1 && (i < 0 <==> s[0] == '-')
  {
    if i < 0 then "-" + Radix(-i, radix) else Radix(i, radix)
  }

  /** `Math.abs(x).toFixed(1)` for x >= 0: integer part, a point, one decimal. */
  function FixedText1(x: real): (s: string)
    requires x >= 0.0
    ensures |s| >= 3 && s[|s| - 2] == '.'
  {
    var n := Round(x * 10.0);
    assert n >= 0;
    Radix(n / 10, 10) + "." + [DigitChar(n % 10)]
  }
}
