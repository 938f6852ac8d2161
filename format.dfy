// Number-to-text conversions the labels rely on: `Number.prototype.toString`
// of a non-negative integer (the legend counts) and `toFixed(0)` (the
// confidence percentage), as section 21.1.3 of ECMA-262 defines them, on
// exact reals.
module Format {

  predicate IsDigit(c: char) { '0' <= c <= '9' }

  function DigitChar(n: nat): (c: char)
    requires n < 10
    ensures IsDigit(c)
  {
    ('0' as int + n) as char
  }

  function DigitValue(c: char): nat
  {
    if IsDigit(c) then c as int - '0' as int else 0
  }

  /** The decimal numeral of `n`: digits only, and a leading zero only for `n == 0`. */
  function Decimal(n: nat): (s: string)
    ensures |s| >= 1
    ensures forall i :: 0 <= i < |s| ==> IsDigit(s[i])
    ensures s[0] == '0' <==> n == 0
  {
    if n < 10 then [DigitChar(n)] else Decimal(n / 10) + [DigitChar(n % 10)]
  }

  /** The value of a numeral read left to right. */
  function ParseDecimal(s: string): nat
  {
    if s == [] then 0 else 10 * ParseDecimal(s[..|s| - 1]) + DigitValue(s[|s| - 1])
  }

  /** Reading back a numeral gives the number it was made from. */
  lemma {:induction false} ParseDecimalOfDecimal(n: nat)
    ensures ParseDecimal(Decimal(n)) == n
  {
    if n >= 10 {
      var s := Decimal(n);
      assert s[..|s| - 1] == Decimal(n / 10);
      ParseDecimalOfDecimal(n / 10);
      assert DigitValue(DigitChar(n % 10)) == n % 10;
    } else {
      assert DigitValue(DigitChar(n)) == n;
    }
  }

  /** The integer nearest to `x`, ties going up. */
  function NearestInt(x: real): int
  {
    (x + 0.5).Floor
  }

  /**
   * `x.toFixed(0)`: a minus sign for negative `x`, then the integer nearest
   * to `|x|` with ties away from zero (so a small negative `x` gives "-0").
   */
  function ToFixed0(x: real): (s: string)
    ensures |s| >= 1
    ensures x >= 0.0 ==> forall i :: 0 <= i < |s| ==> IsDigit(s[i])
    ensures x < 0.0 ==> s[0] == '-' && forall i :: 1 <= i < |s| ==> IsDigit(s[i])
  {
    if x < 0.0 then "-" + Decimal(NearestInt(-x)) else Decimal(NearestInt(x))
  }

  /** `toFixed(0)` writes the nearest integer, rounding half up, and mirrors negatives. */
  lemma ToFixed0Rounds(x: real)
    ensures x >= 0.0 ==>
      var n := ParseDecimal(ToFixed0(x)) as real;
      n - 0.5 <= x < n + 0.5
    ensures x < 0.0 ==> ToFixed0(x) == "-" + ToFixed0(-x)
  {
    if x >= 0.0 {
      ParseDecimalOfDecimal(NearestInt(x));
    }
  }
}
