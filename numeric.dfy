/** The JavaScript number operations the formulas use, on exact values. */
module Numeric {

  /** Math.max of two numbers. */
  function Max(a: int, b: int): (m: int)
    ensures m >= a && m >= b && (m == a || m == b)
  {
    if a >= b then a else b
  }

  /** Math.abs. */
  function Abs(x: real): (a: real)
    ensures a >= 0.0 && (a == x || a == -x)
  {
    if x < 0.0 then -x else x
  }

  /** Math.min(Math.max(x, lo), hi). */
  function Clamp(x: int, lo: int, hi: int): (c: int)
    requires lo <= hi
    ensures lo <= c <= hi
    ensures lo <= x <= hi ==> c == x
    ensures x < lo ==> c == lo
    ensures x > hi ==> c == hi
  {
    if x < lo then lo else if x > hi then hi else x
  }

  /** Math.ceil: the integer in [x, x + 1), that is, the least integer that is not
      below x. It is x.Floor when x is an integer and x.Floor + 1 otherwise; only
      its defining property is exposed to callers. */
  function Ceil(x: real): (r: int)
    ensures x <= r as real < x + 1.0
  {
    var f := x.Floor;
    assert x <= (if f as real == x then f else f + 1) as real < x + 1.0;
    var r :| x <= r as real < x + 1.0;
    r
  }

  /** Ceil(x) is the least integer not below x. */
  lemma CeilIsLeast(x: real, n: int)
    requires x <= n as real
    ensures Ceil(x) <= n
  {
  }

  /** Rounding a quotient up: the result times the divisor reaches the dividend and
      one less falls short, which makes it the least such integer. */
  lemma CeilQuotient(a: real, b: real)
    requires b > 0.0
    ensures Ceil(a / b) as real * b >= a
    ensures ((Ceil(a / b) - 1) as real) * b < a
  {
    QuotientBracket(a, b, Ceil(a / b));
  }

  /** An integer m with m - 1 < a/b <= m brackets a between (m - 1) * b and m * b. */
  lemma QuotientBracket(a: real, b: real, m: int)
    requires b > 0.0 && (m - 1) as real < a / b <= m as real
    ensures m as real * b >= a && (m - 1) as real * b < a
  {
    var q := a / b;
    assert q * b == a;
    assert m as real * b >= q * b;
    assert (m - 1) as real * b < q * b;
  }

  /** Converting a product of integers to a real is the product of the conversions. */
  lemma ProductAsReal(a: int, b: int)
    ensures (a * b) as real == a as real * b as real
  {
  }

  /** Dividing by a positive number keeps a lower bound. */
  lemma QuotientAtLeast(x: real, y: real, c: real)
    requires y > 0.0
    ensures x >= c * y <==> x / y >= c
  {
    assert (x / y) * y == x;
    if x / y >= c {
      assert (x / y) * y >= c * y;
    }
  }

  /** Dividing by a positive number keeps an upper bound. */
  lemma QuotientAtMost(x: real, y: real, c: real)
    requires y > 0.0
    ensures x <= c * y <==> x / y <= c
  {
    assert (x / y) * y == x;
    if x / y <= c {
      assert (x / y) * y <= c * y;
    }
  }

  /** Products of non-negative numbers grow with their factors. */
  lemma ProductMonotone(a1: real, a2: real, b1: real, b2: real)
    requires 0.0 <= a1 <= a2 && 0.0 <= b1 <= b2
    ensures a1 * b1 <= a2 * b2
  {
    assert a1 * b1 <= a2 * b1;
    assert a2 * b1 <= a2 * b2;
  }

  /** A non-negative number divided by a larger positive divisor gets no larger. */
  lemma QuotientAntitone(x: real, y1: real, y2: real)
    requires x >= 0.0 && 0.0 < y1 <= y2
    ensures x / y2 <= x / y1
  {
    assert (x / y2) * y2 == x == (x / y1) * y1;
    assert (x / y1) * y1 <= (x / y1) * y2;
  }

  /** A standard error: a non-negative number held as its square, since the formulas
      take square roots (Math.sqrt) that real arithmetic cannot write down, or the
      NaN that Math.sqrt gives for a negative argument. SqrtOf(0.0) is the value 0. */
  datatype StdError = SqrtOf(square: real) | NaN
  {
    /** Both are numbers and this one is at most that one. */
    predicate AtMost(that: StdError)
    {
      SqrtOf? && that.SqrtOf? && square <= that.square
    }
  }
}
