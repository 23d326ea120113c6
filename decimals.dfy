/**
 * Finite JavaScript numbers as the decimals they print as, and the
 * decimal-place count that the validator's precision check relies on.
 */
module Decimals {
  import opened Arithmetic

  /**
   * A finite number written as `mantissa / 10^scale`. The validator only
   * ever sees a number through its printed form, so a `Decimal` stands for
   * the shortest decimal that `Number.prototype.toString` prints for it.
   */
  datatype Decimal = Decimal(mantissa: int, scale: nat)

  function Value(d: Decimal): real
  {
    d.mantissa as real / Pow10(d.scale) as real
  }

  function Abs(n: int): nat
  {
    if n < 0 then -n else n
  }

  /** No trailing zero digit after the decimal point. */
  predicate Reduced(d: Decimal)
  {
    d.scale == 0 || d.mantissa % 10 != 0
  }

  lemma DropTrailingZero(d: Decimal)
    requires d.scale > 0 && d.mantissa % 10 == 0
    ensures Value(Decimal(d.mantissa / 10, d.scale - 1)) == Value(d)
  {
    var q := d.mantissa / 10;
    var p := Pow10(d.scale - 1);
    assert d.mantissa == 10 * q;
    assert Pow10(d.scale) == 10 * p;
    calc {
      Value(d);
      (10 * q) as real / (10 * p) as real;
      (10.0 * q as real) / (10.0 * p as real);
      q as real / p as real;
    }
  }

  /** Strips trailing zeros: the same value, written with the fewest digits. */
  function Reduce(d: Decimal): (r: Decimal)
    ensures Value(r) == Value(d)
    ensures Reduced(r)
    ensures r.scale <= d.scale
    decreases d.scale
  {
    if d.scale > 0 && d.mantissa % 10 == 0 then
      DropTrailingZero(d);
      Reduce(Decimal(d.mantissa / 10, d.scale - 1))
    else
      d
  }

  /** `x * 10^k`, one factor of ten at a time. */
  function Scaled(x: real, k: nat): real
  {
    if k == 0 then x else Scaled(x, k - 1) * 10.0
  }

  /** Whether `x * 10^k` is a whole number, i.e. `x` has at most `k` decimal places. */
  predicate HasAtMostPlaces(x: real, k: nat)
  {
    IsWhole(Scaled(x, k))
  }

  /** The exact number of decimal places: the scale of the reduced form. */
  function DecimalPlaces(d: Decimal): nat
  {
    Reduce(d).scale
  }

  /** `y == x / b` whenever `y * b == x` and `b` is non-zero. */
  lemma DivisionUnique(x: real, b: real, y: real)
    requires b != 0.0 && y * b == x
    ensures y == x / b
  {
  }

  lemma CancelFactor(x: real, a: real, b: real)
    requires a > 0.0 && b > 0.0
    ensures x / (a * b) * a == x / b
  {
    var q := x / (a * b);
    assert q * (a * b) == x;
    assert (q * a) * b == x;
    DivisionUnique(x, b, q * a);
  }

  lemma MulToReal(m: int, n: int)
    ensures (m * n) as real == m as real * n as real
  {
  }

  lemma {:induction false} ScaledIsProduct(x: real, k: nat)
    ensures Scaled(x, k) == x * Pow10(k) as real
  {
    if k > 0 {
      ScaledIsProduct(x, k - 1);
      var p := Pow10(k - 1) as real;
      assert Pow10(k) as real == 10.0 * p;
      assert x * p * 10.0 == x * (10.0 * p);
    }
  }

  lemma WholeTimesTen(y: real)
    requires IsWhole(y)
    ensures IsWhole(y * 10.0)
  {
    var n := y.Floor;
    assert y * 10.0 == (10 * n) as real;
  }

  /** A value with at most `k` places also has at most `k + 1`. */
  lemma MorePlaces(x: real, k: nat)
    requires HasAtMostPlaces(x, k)
    ensures HasAtMostPlaces(x, k + 1)
  {
    WholeTimesTen(Scaled(x, k));
  }

  lemma IntegerIsWhole(x: real, n: int)
    requires x == n as real
    ensures IsWhole(x)
  {
  }

  /** A decimal with scale `s` has at most `k` places once `s <= k`. */
  lemma {:induction false} ScaleUp(d: Decimal, k: nat)
    requires d.scale <= k
    ensures HasAtMostPlaces(Value(d), k)
    decreases k
  {
    if k == d.scale {
      ScaledIsProduct(Value(d), k);
      DivTimes(d.mantissa as real, Pow10(k) as real);
      IntegerIsWhole(Scaled(Value(d), k), d.mantissa);
    } else {
      ScaleUp(d, k - 1);
      MorePlaces(Value(d), k - 1);
    }
  }

  lemma ScaleDown(m: int, s: nat, k: nat)
    requires k < s
    ensures m as real / Pow10(s) as real * Pow10(k) as real == m as real / Pow10(s - k) as real
  {
    Pow10Add(k, s - k);
    var a, b := Pow10(k) as real, Pow10(s - k) as real;
    assert Pow10(s) as real == a * b;
    CancelFactor(m as real, a, b);
  }

  /** A reduced decimal with scale `s` is not whole after scaling by fewer than `s` powers of ten. */
  lemma DivTimes(x: real, b: real)
    requires b != 0.0
    ensures x / b * b == x
  {
  }

  /** A whole quotient `m / b` of integers makes `b` divide `m`. */
  lemma WholeQuotient(m: int, b: nat)
    requires b > 0 && IsWhole(m as real / b as real)
    ensures m == (m as real / b as real).Floor * b
  {
    var x := m as real / b as real;
    var j := x.Floor;
    DivTimes(m as real, b as real);
    assert j as real * b as real == m as real;
    MulToReal(j, b);
  }

  lemma {:induction false} ReducedNeedsFullScale(r: Decimal, k: nat)
    requires Reduced(r) && k < r.scale
    ensures !HasAtMostPlaces(Value(r), k)
  {
    var m, s := r.mantissa, r.scale;
    ScaleDown(m, s, k);
    QuotientByPowerNotWhole(m, s - k);
    var x := m as real / Pow10(s - k) as real;
    ScaledIsProduct(Value(r), k);
    assert Scaled(Value(r), k) == x;
    assert !IsWhole(x);
  }

  /** An integer with a non-zero last digit divided by a positive power of ten is not whole. */
  lemma QuotientByPowerNotWhole(m: int, e: nat)
    requires e >= 1 && m % 10 != 0
    ensures !IsWhole(m as real / Pow10(e) as real)
  {
    var b := Pow10(e);
    if IsWhole(m as real / b as real) {
      WholeQuotient(m, b);
      MultipleOfPowerIsMultipleOfTen(m, (m as real / b as real).Floor, e);
      assert false;
    }
  }

  lemma MulAssoc(j: int, t: int)
    ensures j * (10 * t) == 10 * (j * t)
  {
  }

  lemma TimesTenHasNoLastDigit(m: int, c: int)
    requires m == 10 * c
    ensures m % 10 == 0
  {
  }

  lemma MultipleOfPowerIsMultipleOfTen(m: int, j: int, e: nat)
    requires e >= 1 && m == j * Pow10(e)
    ensures m % 10 == 0
  {
    var t := Pow10(e - 1);
    assert Pow10(e) == 10 * t;
    MulAssoc(j, t);
    TimesTenHasNoLastDigit(m, j * t);
  }

  /** `DecimalPlaces(d)` is the least `k` such that `Value(d) * 10^k` is whole. */
  lemma PlacesAreLeast(d: Decimal, k: nat)
    ensures HasAtMostPlaces(Value(d), k) <==> DecimalPlaces(d) <= k
  {
    var r := Reduce(d);
    if r.scale <= k {
      ScaleUp(r, k);
    } else {
      ReducedNeedsFullScale(r, k);
    }
  }

  /** The number of decimal digits of `n` (at least one). */
  function NumDigits(n: nat): (k: nat)
    ensures k >= 1
  {
    if n < 10 then 1 else 1 + NumDigits(n / 10)
  }

  /**
   * Whether `toString` prints a reduced non-whole value in exponent form
   * (`1.5e-7`): ECMAScript does so when the value is below 10^-6, which for
   * a mantissa of `D` digits means `D + 6 <= scale`.
   */
  predicate PrintsWithNegativeExponent(r: Decimal)
  {
    NumDigits(Abs(r.mantissa)) + 6 <= r.scale
  }

  /**
   * `getDecimalPlaces`: 0 for a whole number; for a value printed in
   * exponent form, the number after `e-`; otherwise the number of digits
   * after the decimal point.
   */
  function GetDecimalPlaces(d: Decimal): nat
  {
    if IsWhole(Value(d)) then 0
    else
      var r := Reduce(d);
      var digits := NumDigits(Abs(r.mantissa));
      if digits + 6 <= r.scale then r.scale - digits + 1 else r.scale
  }

  /** Outside exponent form the count is exact; inside it, it is at least 7 and never above the exact count. */
  lemma GetDecimalPlacesAgainstExact(d: Decimal)
    ensures !PrintsWithNegativeExponent(Reduce(d)) ==> GetDecimalPlaces(d) == DecimalPlaces(d)
    ensures PrintsWithNegativeExponent(Reduce(d)) && !IsWhole(Value(d)) ==>
              7 <= GetDecimalPlaces(d) <= DecimalPlaces(d)
  {
    if IsWhole(Value(d)) {
      PlacesAreLeast(d, 0);
      assert Value(d) * Pow10(0) as real == Value(d);
    }
  }

  /**
   * For every precision up to 6, the as-written check `getDecimalPlaces(v) > precision`
   * fails exactly the values that have more than `precision` decimal places.
   */
  lemma PrecisionCheckIsExact(d: Decimal, precision: nat)
    requires precision <= 6
    ensures GetDecimalPlaces(d) > precision <==> !HasAtMostPlaces(Value(d), precision)
  {
    PlacesAreLeast(d, precision);
    GetDecimalPlacesAgainstExact(d);
    if IsWhole(Value(d)) {
      PlacesAreLeast(d, 0);
      assert Value(d) * Pow10(0) as real == Value(d);
    }
  }

  /** The source's count is 0 exactly for whole numbers, in either printed form. */
  lemma NoPlacesExactlyWhenWhole(d: Decimal)
    ensures GetDecimalPlaces(d) == 0 <==> IsWhole(Value(d))
  {
    GetDecimalPlacesAgainstExact(d);
    PlacesAreLeast(d, 0);
    assert Scaled(Value(d), 0) == Value(d);
  }

  /** 1.5e-7 has eight decimal places, but `getDecimalPlaces` reads only the exponent: 7. */
  lemma ExponentFormCountsExponentOnly()
    ensures GetDecimalPlaces(Decimal(15, 8)) == 7
    ensures DecimalPlaces(Decimal(15, 8)) == 8
  {
    var d := Decimal(15, 8);
    assert Reduce(d) == d;
    assert NumDigits(15) == 2;
    ReducedNeedsFullScale(d, 0);
    assert Value(d) * Pow10(0) as real == Value(d);
  }
}
