/**
 * Stand-ins for the numpy operations the panel calculation uses: floor and
 * ceil, the four-decimal rounding built on them, arange, and the sqrt/log10
 * pair, which the model receives as parameters instead of computing them.
 * Every number is an exact `real`; see README.md for what that leaves out.
 */
module Numerics {

  /** Grid steps per centimetre of the fixed four-decimal rounding. */
  const Scale: real := 10000.0

  /**
   * numpy's sqrt and log10. The model never evaluates them; Sound() lists
   * the only facts about them that it relies on.
   */
  datatype MathOracle = MathOracle(sqrt: real -> real, log10: real -> real)
  {
    predicate Sound() {
      sqrt(3.0) > 0.0 && sqrt(1.0) == 1.0 && log10(1.0) == 0.0
    }
  }

  /** numpy.floor followed by int(). */
  function Floor(y: real): (k: int)
    ensures k as real <= y < k as real + 1.0
  {
    y.Floor
  }

  /** numpy.ceil followed by int(). */
  function Ceil(y: real): (k: int)
    ensures y <= k as real < y + 1.0
  {
    -((-y).Floor)
  }

  /** x is a whole number of ten-thousandths. */
  predicate OnGrid(x: real) {
    (x * Scale).Floor as real == x * Scale
  }

  /** floor(x * 10^4) / 10^4: the largest grid point not above x. */
  function RoundDown(x: real): (r: real)
    ensures r <= x < r + 1.0 / Scale
  {
    Floor(x * Scale) as real / Scale
  }

  /** ceil(x * 10^4) / 10^4: the smallest grid point not below x. */
  function RoundUp(x: real): (r: real)
    ensures r - 1.0 / Scale < x <= r
  {
    Ceil(x * Scale) as real / Scale
  }

  lemma RoundDownOnGrid(x: real)
    ensures OnGrid(RoundDown(x))
  {
  }

  lemma RoundUpOnGrid(x: real)
    ensures OnGrid(RoundUp(x))
  {
  }

  /** No grid point lies strictly between RoundDown(x) and x. */
  lemma RoundDownIsGreatest(x: real, g: real)
    requires OnGrid(g) && g <= x
    ensures g <= RoundDown(x)
  {
    var k := (g * Scale).Floor;
    assert k as real <= x * Scale;
    assert k <= Floor(x * Scale);
  }

  /** No grid point lies strictly between x and RoundUp(x). */
  lemma RoundUpIsLeast(x: real, g: real)
    requires OnGrid(g) && x <= g
    ensures RoundUp(x) <= g
  {
    var k := (g * Scale).Floor;
    assert x * Scale <= k as real;
    assert Ceil(x * Scale) <= k;
  }

  lemma RoundUpMonotone(a: real, b: real)
    requires a <= b
    ensures RoundUp(a) <= RoundUp(b)
  {
    RoundUpIsLeast(a, RoundUp(b));
  }

  /**
   * numpy.arange(start, stop, step) for a positive step, in exact arithmetic:
   * start + k*step for k = 0, 1, ... while the value stays below stop.
   */
  function Arange(start: real, stop: real, step: real): (xs: seq<real>)
    requires step > 0.0
    ensures forall k :: 0 <= k < |xs| ==> start <= xs[k] < stop
  {
    var n := if stop <= start then 0 else Ceil((stop - start) / step);
    ArangeLength(start, stop, step, n);
    seq(n, k requires 0 <= k < n => Point(start, step, k))
  }

  /**
   * The values of an arange sweep: start, start + step, ... and the sweep
   * runs until the next value would reach stop.
   */
  lemma ArangeValues(start: real, stop: real, step: real)
    requires step > 0.0
    ensures forall k :: 0 <= k < |Arange(start, stop, step)| ==>
              Arange(start, stop, step)[k] == start + k as real * step
    ensures stop <= start + |Arange(start, stop, step)| as real * step
  {
    var n := if stop <= start then 0 else Ceil((stop - start) / step);
    ArangeLength(start, stop, step, n);
  }

  /** The k-th value of an arange sweep. */
  function Point(start: real, step: real, k: int): real
  {
    start + k as real * step
  }

  /** The count numpy.arange computes reaches stop and no element passes it. */
  lemma ArangeLength(start: real, stop: real, step: real, n: int)
    requires step > 0.0
    requires n == if stop <= start then 0 else Ceil((stop - start) / step)
    ensures n >= 0
    ensures forall k :: 0 <= k < n ==> start <= Point(start, step, k) < stop
    ensures stop <= start + n as real * step
  {
    if start < stop {
      var q := (stop - start) / step;
      assert q * step == stop - start;
      assert q > 0.0;
      forall k | 0 <= k < n
        ensures start <= Point(start, step, k) < stop
      {
        assert k as real < q;
        MulStrict(k as real, q, step);
      }
      MulMono(q, n as real, step);
    }
  }

  lemma MulStrict(a: real, b: real, c: real)
    requires a < b && c > 0.0 && a >= 0.0
    ensures 0.0 <= a * c < b * c
  {
  }

  lemma MulMono(a: real, b: real, c: real)
    requires a <= b && c > 0.0
    ensures a * c <= b * c
  {
  }

  lemma MulPos(a: real, b: real)
    requires a > 0.0 && b > 0.0
    ensures a * b > 0.0
  {
  }

  /** Taking half the divisor off the dividend takes a half off the quotient. */
  lemma DivHalf(a: real, d: real)
    requires d != 0.0
    ensures (a - d / 2.0) / d == a / d - 0.5
  {
    var q, r := a / d, (a - d / 2.0) / d;
    assert a == q * d;
    assert r * d == a - d / 2.0;
    assert (r - (q - 0.5)) * d == 0.0;
    ZeroFactor(r - (q - 0.5), d);
  }

  lemma ZeroFactor(x: real, d: real)
    requires x * d == 0.0 && d != 0.0
    ensures x == 0.0
  {
  }

  /** sum(s), accumulated from the left. */
  function Sum(s: seq<int>): int
  {
    if s == [] then 0 else Sum(s[..|s| - 1]) + s[|s| - 1]
  }

  /** The sum of a list that alternates between two values, starting with `even`. */
  lemma {:induction false} AlternatingSum(s: seq<int>, even: int, odd: int)
    requires forall i :: 0 <= i < |s| ==> s[i] == if i % 2 == 0 then even else odd
    ensures Sum(s) == (|s| + 1) / 2 * even + |s| / 2 * odd
  {
    if s != [] {
      var u := s[..|s| - 1];
      var m := |u|;
      assert forall i :: 0 <= i < m ==> u[i] == s[i];
      AlternatingSum(u, even, odd);
      var p, q := (m + 1) / 2, m / 2;
      if m % 2 == 0 {
        assert (m + 2) / 2 == p + 1 && (m + 1) / 2 == q;
        assert (p + 1) * even == p * even + even;
      } else {
        assert (m + 2) / 2 == p && (m + 1) / 2 == q + 1;
        assert (q + 1) * odd == q * odd + odd;
      }
    }
  }

  /** The number of iterations of range(0, n). */
  function RangeLength(n: int): nat
  {
    if n > 0 then n else 0
  }
}
