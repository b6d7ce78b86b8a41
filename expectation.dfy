/**
 * The two steps all three front ends share: scoring an alternative by its
 * expected utility, and choosing the first alternative with the largest score.
 * Probabilities and utilities are reals; the floating-point rounding of the
 * original programs is not modelled.
 */
module Expectation {

  /** `xs.reduce((sum, x) => sum + x, 0)` and Python's `sum(xs)`: a left-to-right sum. */
  function Sum(xs: seq<real>): real
  {
    if xs == [] then 0.0 else Sum(xs[..|xs| - 1]) + xs[|xs| - 1]
  }

  /**
   * `p.reduce((sum, prob, i) => sum + prob * u[i], 0)`: the dot product taken
   * over the indices of the probabilities, left to right.
   */
  function Dot(p: seq<real>, u: seq<real>): real
    requires |p| <= |u|
  {
    if p == [] then 0.0 else Dot(p[..|p| - 1], u) + p[|p| - 1] * u[|p| - 1]
  }

  function Min(a: nat, b: nat): nat
  {
    if a <= b then a else b
  }

  /** Python's `sum(p * u for p, u in zip(ps, us))`: zip stops at the shorter list. */
  function ZipDot(p: seq<real>, u: seq<real>): real
  {
    Dot(p[..Min(|p|, |u|)], u)
  }

  /** A value the front ends accept as a probability: a number in [0, 1]. */
  predicate IsProbability(p: real)
  {
    0.0 <= p <= 1.0
  }

  /** Every entry is a probability. */
  predicate AllProbabilities(ps: seq<real>)
  {
    forall i :: 0 <= i < |ps| ==> IsProbability(ps[i])
  }

  /** `sum(u) / u.length`: the arithmetic mean of the utilities. */
  function Mean(u: seq<real>): real
    requires |u| > 0
  {
    Sum(u) / (|u| as real)
  }

  function Uniform(n: nat, c: real): (r: seq<real>)
    ensures |r| == n && forall i :: 0 <= i < n ==> r[i] == c
  {
    seq(n, _ => c)
  }

  /** The Laplace criterion: each of the n outcomes gets probability 1/n. */
  function LaplaceWeights(n: nat): (r: seq<real>)
    ensures |r| == n
  {
    if n == 0 then [] else Uniform(n, 1.0 / (n as real))
  }

  /** The index `k` holds a largest score and no earlier index holds one as large. */
  predicate IsFirstMax(s: seq<real>, k: int)
  {
    && 0 <= k < |s|
    && (forall j :: 0 <= j < |s| ==> s[j] <= s[k])
    && (forall j :: 0 <= j < k ==> s[j] < s[k])
  }

  /**
   * `s.reduce((best, cur) => cur > best ? cur : best)` on a non-empty list,
   * and Python's `max`: a left fold that replaces the best so far only on a strictly
   * larger score, so the first maximum wins.
   */
  function FirstMax(s: seq<real>): (k: nat)
    requires |s| > 0
    ensures IsFirstMax(s, k)
  {
    if |s| == 1 then 0
    else
      var b := FirstMax(s[..|s| - 1]);
      if s[|s| - 1] > s[b] then |s| - 1 else b
  }

  /** The first maximum is unique, so the fold finds exactly the index the predicate describes. */
  lemma FirstMaxCharacterized(s: seq<real>, k: int)
    requires |s| > 0
    ensures IsFirstMax(s, k) <==> k == FirstMax(s)
  {
  }

  lemma {:induction false} SumUniform(n: nat, c: real)
    ensures Sum(Uniform(n, c)) == (n as real) * c
  {
    if n > 0 {
      assert Uniform(n, c)[..n - 1] == Uniform(n - 1, c);
      SumUniform(n - 1, c);
    }
  }

  /** Laplace weights form a probability distribution: they sum to one. */
  lemma LaplaceWeightsSumToOne(n: nat)
    requires n > 0
    ensures Sum(LaplaceWeights(n)) == 1.0
  {
    SumUniform(n, 1.0 / (n as real));
  }

  lemma {:induction false} DotUniform(k: nat, c: real, u: seq<real>)
    requires k <= |u|
    ensures Dot(Uniform(k, c), u) == c * Sum(u[..k])
  {
    if k > 0 {
      assert Uniform(k, c)[..k - 1] == Uniform(k - 1, c);
      assert u[..k][..k - 1] == u[..k - 1];
      DotUniform(k - 1, c, u);
    }
  }

  /**
   * Scoring with Laplace weights and scoring by the mean utility agree, so the
   * "mean of the utilities" rule of one front end is the Laplace criterion of the others.
   */
  lemma LaplaceDotIsMean(u: seq<real>)
    requires |u| > 0
    ensures Dot(LaplaceWeights(|u|), u) == Mean(u)
  {
    DotUniform(|u|, 1.0 / (|u| as real), u);
    assert u[..|u|] == u;
  }

  /** With lists of equal length, zip truncates nothing. */
  lemma ZipDotOfEqualLengths(p: seq<real>, u: seq<real>)
    requires |p| == |u|
    ensures ZipDot(p, u) == Dot(p, u)
  {
    assert p[..|p|] == p;
  }

  lemma {:induction false} DotPrefix(p: seq<real>, u: seq<real>, v: seq<real>)
    requires |p| <= |u| && |p| <= |v| && u[..|p|] == v[..|p|]
    ensures Dot(p, u) == Dot(p, v)
  {
    if p != [] {
      assert u[..|p| - 1] == v[..|p| - 1] by {
        assert u[..|p| - 1] == u[..|p|][..|p| - 1];
        assert v[..|p| - 1] == v[..|p|][..|p| - 1];
      }
      assert u[|p| - 1] == u[..|p|][|p| - 1];
      assert v[|p| - 1] == v[..|p|][|p| - 1];
      DotPrefix(p[..|p| - 1], u, v);
    }
  }

  /** Python's zip-based score ignores every utility without a probability and vice versa. */
  lemma ZipDotTruncates(p: seq<real>, u: seq<real>)
    ensures ZipDot(p, u) == Dot(p[..Min(|p|, |u|)], u[..Min(|p|, |u|)])
  {
    var m := Min(|p|, |u|);
    assert u[..m][..m] == u[..m];
    DotPrefix(p[..m], u, u[..m]);
  }

  /** Decision under risk, two alternatives: scores 15 and 21, and the second is chosen. */
  lemma RiskScenario()
    ensures Dot([0.5, 0.5], [10.0, 20.0]) == 15.0
    ensures Dot([0.2, 0.8], [5.0, 25.0]) == 21.0
    ensures FirstMax([15.0, 21.0]) == 1
  {
    assert [0.5, 0.5][..1] == [0.5];
    assert [0.2, 0.8][..1] == [0.2];
    assert [15.0, 21.0][..1] == [15.0];
  }

  /** Decision under uncertainty: four outcomes get weight 1/4 each and the score is 2.5. */
  lemma LaplaceScenario()
    ensures LaplaceWeights(4) == [0.25, 0.25, 0.25, 0.25]
    ensures Dot(LaplaceWeights(4), [1.0, 2.0, 3.0, 4.0]) == 2.5
  {
    LaplaceDotIsMean([1.0, 2.0, 3.0, 4.0]);
    var u := [1.0, 2.0, 3.0, 4.0];
    assert u[..3] == [1.0, 2.0, 3.0];
    assert u[..3][..2] == [1.0, 2.0];
    assert u[..3][..2][..1] == [1.0];
    assert Sum([1.0]) == 1.0;
    assert Sum([1.0, 2.0]) == 3.0;
    assert Sum([1.0, 2.0, 3.0]) == 6.0;
    assert Sum(u) == 10.0;
  }
}
