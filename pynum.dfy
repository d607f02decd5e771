/** Python's numeric built-ins that the modelled code relies on, written out
    over Dafny's unbounded integers and exact reals. */
module PyNum {

  function Abs(x: real): (r: real)
    ensures r >= 0.0 && (r == x || r == -x)
  {
    if x < 0.0 then -x else x
  }

  function Min(a: real, b: real): (r: real)
    ensures r <= a && r <= b && (r == a || r == b)
  {
    if a <= b then a else b
  }

  function Max(a: real, b: real): (r: real)
    ensures r >= a && r >= b && (r == a || r == b)
  {
    if a >= b then a else b
  }

  /** Python's `round(x)` on a float: the nearest integer, ties to the even one. */
  function RoundHalfEven(x: real): (r: int)
    ensures -0.5 <= r as real - x <= 0.5
    ensures (r as real - x == 0.5 || x - r as real == 0.5) ==> r % 2 == 0
  {
    var f := x.Floor;
    var frac := x - f as real;
    if frac < 0.5 then f
    else if frac > 0.5 then f + 1
    else if f % 2 == 0 then f else f + 1
  }

  /** The integer nearest to `x` is unique when `x` is not halfway. */
  lemma RoundHalfEvenUnique(x: real, k: int)
    requires -0.5 < k as real - x < 0.5
    ensures RoundHalfEven(x) == k
  {
    var r := RoundHalfEven(x);
    assert -1.0 < r as real - k as real < 1.0;
  }

  /** Rounding keeps an integer value. */
  lemma RoundHalfEvenOfInt(k: int)
    ensures RoundHalfEven(k as real) == k
  {
    RoundHalfEvenUnique(k as real, k);
  }

  /** Rounding is monotone. */
  lemma RoundHalfEvenMonotone(x: real, y: real)
    requires x <= y
    ensures RoundHalfEven(x) <= RoundHalfEven(y)
  {
  }

  /** Rounding a value of the closed interval [0, p] stays in it. */
  lemma RoundHalfEvenBounds(x: real, p: int)
    requires 0.0 <= x <= p as real
    ensures 0 <= RoundHalfEven(x) <= p
  {
    RoundHalfEvenOfInt(0);
    RoundHalfEvenOfInt(p);
    RoundHalfEvenMonotone(0.0, x);
    RoundHalfEvenMonotone(x, p as real);
  }

  /** Python's floor division `a // b` (rounds toward minus infinity); Dafny's
      own `/` is Euclidean and differs from it when `b` is negative. */
  function FloorDiv(a: int, b: int): (q: int)
    requires b != 0
    ensures b > 0 ==> b * q <= a < b * q + b
    ensures b < 0 ==> b * q >= a > b * q + b
  {
    if b > 0 then a / b else (-a) / (-b)
  }

  /** `a // b` is the floor of the exact quotient. */
  lemma FloorDivIsFloor(a: int, b: int)
    requires b != 0
    ensures FloorDiv(a, b) == (a as real / b as real).Floor
  {
    var q := FloorDiv(a, b);
    if b > 0 {
      QuotientBetween(a as real, b as real, q as real);
    } else {
      assert a as real / b as real == (-a) as real / (-b) as real;
      QuotientBetween((-a) as real, (-b) as real, q as real);
    }
  }

  lemma QuotientBetween(num: real, den: real, q: real)
    requires den > 0.0 && q * den <= num < q * den + den
    ensures q <= num / den < q + 1.0
  {
    var z := num / den;
    assert z * den == num;
    assert (z - q) * den == num - q * den;
    assert (q + 1.0 - z) * den == q * den + den - num;
    if z >= q + 1.0 {
      MulNonNegative(z - q - 1.0, den);
    }
  }

  lemma MulNonNegative(x: real, y: real)
    requires x >= 0.0 && y >= 0.0
    ensures x * y >= 0.0
  {
  }

  /** Python's `v & ~1` on an integer: in infinite two's complement this clears
      bit 0, which is `v - v % 2` with a non-negative remainder. */
  function ClearLowBit(v: int): (r: int)
    ensures r % 2 == 0
    ensures v - 1 <= r <= v
  {
    v - v % 2
  }
}
