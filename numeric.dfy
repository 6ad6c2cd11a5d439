/** Real-number helpers shared by the models: Python's `int()`, rounding to two
    decimals, and minimum/maximum over a non-empty sequence. */
module Numeric {

  /** Python's `int(x)` on a float: truncation toward zero. */
  function Trunc(x: real): (n: int)
    ensures 0.0 <= x ==> n as real <= x < n as real + 1.0
    ensures x < 0.0 ==> n as real - 1.0 < x <= n as real
  {
    if x >= 0.0 then x.Floor else -((-x).Floor)
  }

  /** A value rounded to two decimals, counted in hundredths: the number behind
      both `round(x, 2)` and the label `f"{x:.2f}"`. */
  function Hundredths(x: real): (h: int)
    ensures h as real - 0.5 <= x * 100.0 < h as real + 0.5
  {
    (x * 100.0 + 0.5).Floor
  }

  /** `round(x, 2)`: never more than half a hundredth away from `x`. */
  function Round2(x: real): (r: real)
    ensures -0.005 <= r - x <= 0.005
  {
    Hundredths(x) as real / 100.0
  }

  function Min(a: real, b: real): real { if a <= b then a else b }

  function Max(a: real, b: real): real { if a >= b then a else b }

  /** The smallest element of a non-empty sequence (pandas `Series.min`). */
  function SeqMin(s: seq<real>): (m: real)
    requires |s| > 0
    ensures m in s
    ensures forall i :: 0 <= i < |s| ==> m <= s[i]
  {
    if |s| == 1 then s[0] else Min(s[0], SeqMin(s[1..]))
  }

  /** The largest element of a non-empty sequence (pandas `Series.max`). */
  function SeqMax(s: seq<real>): (m: real)
    requires |s| > 0
    ensures m in s
    ensures forall i :: 0 <= i < |s| ==> s[i] <= m
  {
    if |s| == 1 then s[0] else Max(s[0], SeqMax(s[1..]))
  }

  /** `numpy.linspace(start, stop, num)`: `num` equally spaced values, both ends included. */
  function Linspace(start: real, stop: real, num: nat): (vs: seq<real>)
    ensures |vs| == num
    ensures num >= 1 ==> vs[0] == start
    ensures num >= 2 ==> vs[num - 1] == stop
    ensures num >= 2 ==> forall i :: 0 <= i < num - 1 ==>
      vs[i + 1] - vs[i] == (stop - start) / (num - 1) as real
  {
    if num <= 1 then seq(num, i => start)
    else
      var step := (stop - start) / (num - 1) as real;
      seq(num, i requires 0 <= i < num => if i == num - 1 then stop else start + i as real * step)
  }

  /** Dividing by a positive number keeps the strict order. */
  lemma DivStrict(a: real, b: real, c: real)
    requires a < b && c > 0.0
    ensures a / c < b / c
  {
    assert b / c - a / c == (b - a) / c;
  }

  /** Dividing by a positive number keeps the order. */
  lemma DivMono(a: real, b: real, c: real)
    requires a <= b && c > 0.0
    ensures a / c <= b / c
  {
    assert b / c - a / c == (b - a) / c;
  }

  lemma TimesQuotient(k: real, c: real)
    requires c > 0.0
    ensures k * c / c == k
  {
  }

  /** A lower bound on `d` divides into a lower bound on `d / c`. */
  lemma QuotientAtLeast(m: real, d: real, c: real)
    requires c > 0.0 && m * c <= d
    ensures m <= d / c
  {
    DivMono(m * c, d, c);
    TimesQuotient(m, c);
  }

  /** An upper bound on `d` divides into an upper bound on `d / c`. */
  lemma QuotientBelow(m: real, d: real, c: real)
    requires c > 0.0 && d < m * c
    ensures d / c < m
  {
    DivStrict(d, m * c, c);
    TimesQuotient(m, c);
  }

  /** `k * c <= d < k * c + c` when `k` is the whole part of `d / c`. */
  lemma WholeCells(d: real, c: real, k: real)
    requires c > 0.0 && k <= d / c < k + 1.0
    ensures k * c <= d < k * c + c
  {
    if d < k * c {
      QuotientBelow(k, d, c);
      assert false;
    }
    if k * c + c <= d {
      assert (k + 1.0) * c <= d;
      QuotientAtLeast(k + 1.0, d, c);
      assert false;
    }
  }
}
