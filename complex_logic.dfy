// Model of `complex_logic(int $x): int`, the one computation in the two
// sample files php/test.php and php/test2.php (the two copies are identical).
// Both files declare strict_types, so the PHP function accepts only a PHP
// int and must return a PHP int.

module Complexity {

  /** Bounds of a PHP `int` on a 64-bit platform (PHP_INT_MIN, PHP_INT_MAX). */
  const IntMin: int := -0x8000_0000_0000_0000
  const IntMax: int := 0x7fff_ffff_ffff_ffff

  /** Largest positive input whose running sum still fits in a PHP int. */
  const LargestSummable: int := 0x1_0000_0000

  /**
   * What a call observably produces: the returned int, or the TypeError that
   * strict typing raises when the function tries to return a float (the sum
   * has left the int range and PHP has promoted it to a float).
   */
  datatype Outcome = Returned(value: int) | TypeError

  /** 0 + 1 + ... + (n - 1): the sum that the positive branch accumulates. */
  function Triangle(n: nat): nat
  {
    if n == 0 then 0 else Triangle(n - 1) + (n - 1)
  }

  /**
   * The closed form of complex_logic: -10 from -10 downwards, 4 between -10
   * and 0, 0 at 0, and the triangular number x(x-1)/2 above 0 as long as it
   * is a PHP int.
   */
  function ClosedForm(x: int): Outcome
  {
    if x <= -10 then Returned(-10)
    else if x < 0 then Returned(4)
    else if x == 0 then Returned(0)
    else if x * (x - 1) / 2 > IntMax then TypeError
    else Returned(x * (x - 1) / 2)
  }

  /**
   * complex_logic as the PHP source runs it: a five-pass loop for a negative
   * input (even passes climb towards 0 and leave the whole function with -10
   * on meeting -10; odd passes add the pass number, the `default` branch being
   * dead), 0 for 0, and a summing loop for a positive input.
   */
  method ComplexLogic(x0: int) returns (r: Outcome)
    requires IntMin <= x0 <= IntMax
    ensures r == ClosedForm(x0)
  {
    var x := x0;
    if x < 0 {
      var i := 0;
      while i < 5
        invariant 0 <= i <= 5
        invariant i == 0 ==> x == x0
        invariant x0 <= -10 ==> i == 0
        invariant i == 1 ==> x == 0
        invariant i == 2 || i == 3 ==> x == 1
        invariant i == 4 || i == 5 ==> x == 4
        decreases 5 - i
      {
        if i % 2 == 0 {
          while x < 0
            invariant i == 0 ==> x0 <= x <= 0
            invariant x0 <= -10 ==> x <= -10
            invariant i == 2 ==> x == 1
            invariant i == 4 ==> x == 4
            decreases -x
          {
            if x == -10 {
              return Returned(-10);
            }
            x := x + 1;
          }
        } else {
          // switch ($i): the only odd passes below 5 are 1 and 3
          if i == 1 || i == 3 {
            x := x + i;
          } else {
            assert false;
            x := x - i;
          }
        }
        i := i + 1;
      }
    } else if x == 0 {
      return Returned(0);
    } else {
      // `res` is the exact sum; once it passes IntMax PHP holds it as a float,
      // whose value only matters through the TypeError it later causes.
      var res := 0;
      var resIsFloat := false;
      var i := 0;
      while i < x
        invariant 0 <= i <= x
        invariant res == Triangle(i)
        invariant resIsFloat <==> res > IntMax
        decreases x - i
      {
        if !resIsFloat && res + i > IntMax {
          resIsFloat := true;
        }
        res := res + i;
        i := i + 1;
      }
      TriangleClosedForm(x);
      if resIsFloat {
        return TypeError;
      }
      return Returned(res);
    }
    return Returned(x);
  }

  /** The accumulated sum is the triangular number: 2 * (0 + ... + (n-1)) == n(n-1). */
  lemma {:induction false} TriangleClosedForm(n: nat)
    ensures 2 * Triangle(n) == n * (n - 1)
  {
    if n > 0 {
      TriangleClosedForm(n - 1);
      assert n * (n - 1) == (n - 1) * (n - 2) + 2 * (n - 1);
    }
  }

  /**
   * Above 0 the function returns the sum 0 + 1 + ... + (x - 1) when that sum
   * is a PHP int, and fails with a TypeError otherwise.
   */
  lemma {:induction false} PositiveIsSum(x: int)
    requires 0 < x
    ensures ClosedForm(x) == if Triangle(x) <= IntMax then Returned(Triangle(x)) else TypeError
  {
    TriangleClosedForm(x);
  }

  /** The running sum grows with n, so once it has left the int range it stays out. */
  lemma {:induction false} TriangleMonotone(m: nat, n: nat)
    requires m <= n
    ensures Triangle(m) <= Triangle(n)
    decreases n - m
  {
    if m < n {
      TriangleMonotone(m, n - 1);
    }
  }

  /** The sum 0 + ... + (n - 1) fits in a 64-bit PHP int exactly for n <= 2^32. */
  lemma {:induction false} SumFitsExactly(n: nat)
    ensures Triangle(n) <= IntMax <==> n <= LargestSummable
  {
    TriangleClosedForm(n);
    if 0 < n <= LargestSummable {
      MulMonotone(n, n - 1, LargestSummable, LargestSummable - 1);
    } else if n > LargestSummable {
      MulMonotone(LargestSummable + 1, LargestSummable, n, n - 1);
    }
  }

  /** Product of non-negative factors is monotone in both factors. */
  lemma MulMonotone(a: int, b: int, c: int, d: int)
    requires 0 <= a <= c && 0 <= b <= d
    ensures a * b <= c * d
  {
    assert a * b <= c * b;
    assert c * b <= c * d;
  }

  /**
   * Over the whole domain a returned value is at least -10, and it is
   * negative exactly when it is -10.
   */
  lemma ResultBounds(x: int)
    requires ClosedForm(x).Returned?
    ensures ClosedForm(x).value >= -10
    ensures ClosedForm(x).value < 0 <==> ClosedForm(x).value == -10
  {
    if x > 0 {
      MulMonotone(0, 0, x, x - 1);
    }
  }

  /**
   * The only inputs for which the function fails are those above 2^32:
   * 2^32 * (2^32 - 1) / 2 still fits in a 64-bit PHP int, the next sum does not.
   */
  lemma TypeErrorExactly(x: int)
    ensures ClosedForm(x) == TypeError <==> x > LargestSummable
  {
    if x > 0 {
      PositiveIsSum(x);
      SumFitsExactly(x);
    }
  }

  /** Sample values: f(0), f(1), f(5), f(-1), f(-10) and f(-11). */
  lemma ClosedFormSamples()
    ensures ClosedForm(0) == Returned(0)
    ensures ClosedForm(1) == Returned(0)
    ensures ClosedForm(5) == Returned(10)
    ensures ClosedForm(-1) == Returned(4)
    ensures ClosedForm(-10) == Returned(-10)
    ensures ClosedForm(-11) == Returned(-10)
  {
  }
}
