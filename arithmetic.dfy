/**
 * Real-number helpers shared by the damage calculator and its validator:
 * the `reduce((sum, x) => sum + x, 0)` fold, powers of ten and the
 * `Math.floor(x) === x` whole-number test.
 */
module Arithmetic {

  /** `xs.reduce((sum, x) => sum + x, 0)`: a left fold starting at 0. */
  function Sum(xs: seq<real>): real
  {
    if xs == [] then 0.0 else Sum(xs[..|xs| - 1]) + xs[|xs| - 1]
  }

  /** Appending one element adds it to the total (the fold's step). */
  lemma SumSnoc(xs: seq<real>, x: real)
    ensures Sum(xs + [x]) == Sum(xs) + x
  {
    assert (xs + [x])[..|xs|] == xs;
  }

  /** A sum of non-negative terms is non-negative. */
  lemma {:induction false} SumNonNegative(xs: seq<real>)
    requires forall i :: 0 <= i < |xs| ==> 0.0 <= xs[i]
    ensures 0.0 <= Sum(xs)
  {
    if xs != [] {
      SumNonNegative(xs[..|xs| - 1]);
    }
  }

  /** A sum of zeros is zero. */
  lemma {:induction false} SumOfZeros(xs: seq<real>)
    requires forall i :: 0 <= i < |xs| ==> xs[i] == 0.0
    ensures Sum(xs) == 0.0
  {
    if xs != [] {
      SumOfZeros(xs[..|xs| - 1]);
    }
  }

  /** `Math.floor(x) === x`. */
  predicate IsWhole(x: real)
  {
    x.Floor as real == x
  }

  function Pow10(n: nat): (p: nat)
    ensures p >= 1
  {
    if n == 0 then 1 else 10 * Pow10(n - 1)
  }

  lemma {:induction false} Pow10Add(a: nat, b: nat)
    ensures Pow10(a + b) == Pow10(a) * Pow10(b)
  {
    if b != 0 {
      Pow10Add(a, b - 1);
      assert Pow10(a + b) == 10 * Pow10(a + b - 1);
    }
  }

  /** A whole number stays whole when multiplied by a whole number. */
  lemma WholeTimesInt(x: real, n: int)
    requires IsWhole(x)
    ensures IsWhole(x * n as real)
  {
    var k := x.Floor;
    assert x * n as real == (k * n) as real;
  }
}
