/**
 * The arithmetic behind a band's `overallRating`. Ratings are kept in whole
 * tenths (45 stands for 4.5), and the mean is rounded to tenths half up; this
 * stands for `+(sum / n).toFixed(1)` on binary floating point.
 */
module Ratings {

  /** The lowest and the highest accepted album rating, in tenths. */
  const MinTenths := 10
  const MaxTenths := 50

  /** `rs.reduce((acc, r) => acc + r, 0)`, folded from the left. */
  function Sum(rs: seq<int>): int {
    if rs == [] then 0 else Sum(rs[..|rs| - 1]) + rs[|rs| - 1]
  }

  /**
   * The mean of a non-empty sequence of tenths, rounded to the nearest tenth,
   * halves rounded up: `m - 1/2 <= Sum(rs) / |rs| < m + 1/2`.
   */
  function RoundedMean(rs: seq<int>): (m: int)
    requires |rs| > 0
    ensures 2 * |rs| * m - |rs| <= 2 * Sum(rs) < 2 * |rs| * m + |rs|
  {
    (2 * Sum(rs) + |rs|) / (2 * |rs|)
  }

  lemma SumAppend(rs: seq<int>, x: int)
    ensures Sum(rs + [x]) == Sum(rs) + x
  {
    assert (rs + [x])[..|rs|] == rs;
  }

  /** Every term between lo and hi puts the sum between n*lo and n*hi. */
  lemma {:induction false} SumBounds(rs: seq<int>, lo: int, hi: int)
    requires forall i :: 0 <= i < |rs| ==> lo <= rs[i] <= hi
    ensures |rs| * lo <= Sum(rs) <= |rs| * hi
  {
    if rs != [] {
      var init := rs[..|rs| - 1];
      SumBounds(init, lo, hi);
      assert |rs| * lo == |init| * lo + lo;
      assert |rs| * hi == |init| * hi + hi;
    }
  }

  /** From `a*b < a*c` with a positive `a`, `b < c`. */
  lemma CancelLess(a: int, b: int, c: int)
    requires a > 0 && a * b < a * c
    ensures b < c
  {
    assert a * c - a * b == a * (c - b);
  }

  /** The rounding bounds and the bounds on the sum, with the products named so the reasoning is linear. */
  lemma RoundedWithin(n: int, s: int, m: int, lo: int, hi: int)
    requires n > 0
    requires 2 * n * m - n <= 2 * s < 2 * n * m + n
    requires n * lo <= s <= n * hi
    ensures lo <= m <= hi
  {
    var c, a, b := n * m, n * hi, n * lo;
    assert 2 * n * m == 2 * c;
    assert n * (hi + 1) == a + n;
    assert n * (m + 1) == c + n;
    assert c < a + n;
    CancelLess(n, m, hi + 1);
    assert b < c + n;
    CancelLess(n, lo, m + 1);
  }

  /** The rounded mean of terms that all lie between lo and hi also lies between them. */
  lemma MeanWithin(rs: seq<int>, lo: int, hi: int)
    requires |rs| > 0
    requires forall i :: 0 <= i < |rs| ==> lo <= rs[i] <= hi
    ensures lo <= RoundedMean(rs) <= hi
  {
    SumBounds(rs, lo, hi);
    RoundedWithin(|rs|, Sum(rs), RoundedMean(rs), lo, hi);
  }

  /** When every term equals r, the rounded mean is r itself. */
  lemma MeanOfEqualTerms(rs: seq<int>, r: int)
    requires |rs| > 0
    requires forall i :: 0 <= i < |rs| ==> rs[i] == r
    ensures RoundedMean(rs) == r
  {
    MeanWithin(rs, r, r);
  }
}
