/** Number helpers shared by every component: the JavaScript rounding
    functions written over exact rationals, and small min/max helpers. */
module Numeric {

  /** `Math.round`: the nearest integer, halves rounded towards +infinity. */
  function Round(x: real): (r: int)
    ensures r as real - 0.5 <= x < r as real + 0.5
  {
    (x + 0.5).Floor
  }

  /** `Math.ceil`: the least integer not below `x`. */
  function Ceil(x: real): (r: int)
    ensures x <= r as real < x + 1.0
  {
    -((-x).Floor)
  }

  function Min(a: real, b: real): (r: real)
    ensures r <= a && r <= b && (r == a || r == b)
  {
    if a <= b then a else b
  }

  function Max(a: real, b: real): (r: real)
    ensures r >= a && r >= b && (r == a || r == b)
  {
    if a >= b then a else b
  }

  function MinInt(a: int, b: int): (r: int)
    ensures r <= a && r <= b && (r == a || r == b)
  {
    if a <= b then a else b
  }

  function MaxInt(a: int, b: int): (r: int)
    ensures r >= a && r >= b && (r == a || r == b)
  {
    if a >= b then a else b
  }

  /** `x` has no fractional part (`x % 1 === 0` in JavaScript). */
  predicate IsInteger(x: real) {
    x == x.Floor as real
  }

  /** `base` raised to a natural power. */
  function Pow(base: real, n: nat): real
  {
    if n == 0 then 1.0 else Pow(base, n - 1) * base
  }

  /** Rounding is monotone: a larger number never rounds to a smaller integer. */
  lemma RoundMonotone(x: real, y: real)
    requires x <= y
    ensures Round(x) <= Round(y)
  {
  }

  /** Rounding an integer gives it back. */
  lemma RoundOfInteger(n: int)
    ensures Round(n as real) == n
  {
  }

  lemma {:induction false} PowPositive(base: real, n: nat)
    requires base > 0.0
    ensures Pow(base, n) > 0.0
  {
    if n > 0 {
      PowPositive(base, n - 1);
    }
  }

  lemma {:induction false} PowAtLeastOne(base: real, n: nat)
    requires base >= 1.0
    ensures Pow(base, n) >= 1.0
  {
    if n > 0 {
      PowAtLeastOne(base, n - 1);
      assert Pow(base, n) == Pow(base, n - 1) * base;
      assert Pow(base, n - 1) * base >= Pow(base, n - 1) * 1.0;
    }
  }

  /** A quotient by a positive number is at most one when the dividend does
      not exceed the divisor. */
  lemma QuotientAtMostOne(a: real, b: real)
    requires b > 0.0 && a <= b
    ensures a / b <= 1.0
  {
    assert a / b * b == a;
    assert (1.0 - a / b) * b == b - a;
  }

  lemma QuotientAtLeastOne(a: real, b: real)
    requires b > 0.0 && a >= b
    ensures a / b >= 1.0
  {
    assert a / b * b == a;
    assert (a / b - 1.0) * b == a - b;
  }

  /** Products of non-negative factors grow with each factor. */
  lemma MulMonotone(a: real, b: real, c: real, d: real)
    requires 0.0 <= a <= b && 0.0 <= c <= d
    ensures a * c <= b * d
  {
    assert a * c <= b * c;
    assert b * c <= b * d;
  }

  lemma Distribute(a: real, x: real, y: real)
    ensures a * (x + y) == a * x + a * y
  {
  }

  /** Dividing `b·y` by a non-zero `y` gives back `b`. */
  lemma DivideOut(x: real, b: real, y: real)
    requires y != 0.0 && x == b * y
    ensures x / y == b
  {
  }

  lemma ScaleZero(a: real, z: real)
    requires z == 0.0
    ensures a * z == 0.0
  {
  }

  lemma ScaleEqual(a: real, x: real, y: real)
    requires x == y
    ensures a * x == a * y
  {
  }

  /** The positions of `xs` whose element satisfies `p`: what
      `xs.filter(p).length` counts. */
  function IndicesWhere<T>(xs: seq<T>, p: T -> bool): set<nat> {
    set i: nat | i < |xs| && p(xs[i])
  }

  /** Appending one element adds its position exactly when it satisfies `p`. */
  lemma IndicesWhereSnoc<T>(xs: seq<T>, p: T -> bool)
    requires xs != []
    ensures |IndicesWhere(xs, p)|
         == |IndicesWhere(xs[..|xs| - 1], p)| + (if p(xs[|xs| - 1]) then 1 else 0)
  {
    var n := |xs| - 1;
    var init := xs[..n];
    assert forall i :: 0 <= i < n ==> init[i] == xs[i];
    assert IndicesWhere(xs, p) == IndicesWhere(init, p) + (if p(xs[n]) then {n} else {});
  }
}
