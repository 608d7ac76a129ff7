/** The prior and posterior of scratch/mcmc_check.py (lines 50-66): a bounded
    uniform prior on the offset, width and amplitude of a single Gaussian, and
    a log-probability that consults the likelihood only inside its support. */
module Posterior {

  /** A log-density value: minus infinity or a finite real. */
  datatype LogValue = NegInf | Finite(v: real)

  /** The sampled vector `theta`, unpacked as `dx, dy, sigma, amp_1`. */
  datatype Theta = Theta(dx: real, dy: real, sigma: real, amp: real)

  function Abs(x: real): real
  {
    if x < 0.0 then -x else x
  }

  /** The support of the prior, stated as open intervals. */
  predicate InSupport(theta: Theta, da: real)
  {
    && -20.0 < theta.dx < 20.0
    && -20.0 < theta.dy < 20.0
    && 0.01 * da < theta.sigma < 30.0 * da
    && -10.0 < theta.amp < 10.0
  }

  /** Lines 50-59: `log_prior`. */
  function LogPrior(theta: Theta, da: real): (lp: LogValue)
    ensures lp == Finite(0.0) <==> InSupport(theta, da)
    ensures lp == NegInf <==> !InSupport(theta, da)
  {
    if Abs(theta.dx) < 20.0 && Abs(theta.dy) < 20.0
       && 0.01 * da < theta.sigma < 30.0 * da
       && -10.0 < theta.amp < 10.0
    then Finite(0.0)
    else NegInf
  }

  /** Lines 62-66: `log_probability`. The likelihood, `my_sampler` together
      with the data it closes over, is a parameter. */
  function LogProbability(theta: Theta, da: real, likelihood: Theta -> real): LogValue
  {
    var lp := LogPrior(theta, da);
    if !lp.Finite? then NegInf else Finite(lp.v + likelihood(theta))
  }

  /** Outside the support the posterior is minus infinity whatever the
      likelihood is, so the likelihood's value is never used there; inside it
      the posterior is the likelihood itself, since the prior adds zero. */
  lemma PosteriorCases(theta: Theta, da: real, likelihood: Theta -> real, other: Theta -> real)
    ensures !InSupport(theta, da) ==>
      LogProbability(theta, da, likelihood) == NegInf == LogProbability(theta, da, other)
    ensures InSupport(theta, da) ==> LogProbability(theta, da, likelihood) == Finite(likelihood(theta))
  {
  }

  /** Every bound is strict: a coordinate on the edge of its interval is rejected. */
  lemma BoundariesRejected(theta: Theta, da: real)
    requires || Abs(theta.dx) == 20.0 || Abs(theta.dy) == 20.0
             || theta.sigma == 0.01 * da || theta.sigma == 30.0 * da
             || theta.amp == 10.0 || theta.amp == -10.0
    ensures LogPrior(theta, da) == NegInf
  {
  }

  /** A non-positive angular-diameter factor leaves the width interval empty,
      so the prior rejects every vector. */
  lemma NonPositiveScaleRejectsAll(theta: Theta, da: real)
    requires da <= 0.0
    ensures LogPrior(theta, da) == NegInf
  {
  }

  /** The support is convex: every point on the segment between two accepted
      vectors is accepted. */
  lemma SupportConvex(a: Theta, b: Theta, da: real, t: real)
    requires InSupport(a, da) && InSupport(b, da)
    requires 0.0 <= t <= 1.0
    ensures InSupport(Theta(t * a.dx + (1.0 - t) * b.dx, t * a.dy + (1.0 - t) * b.dy,
                            t * a.sigma + (1.0 - t) * b.sigma, t * a.amp + (1.0 - t) * b.amp), da)
  {
    Between(a.dx, b.dx, -20.0, 20.0, t);
    Between(a.dy, b.dy, -20.0, 20.0, t);
    Between(a.sigma, b.sigma, 0.01 * da, 30.0 * da, t);
    Between(a.amp, b.amp, -10.0, 10.0, t);
  }

  lemma Between(x: real, y: real, lo: real, hi: real, t: real)
    requires lo < x < hi && lo < y < hi && 0.0 <= t <= 1.0
    ensures lo < t * x + (1.0 - t) * y < hi
  {
    var u := 1.0 - t;
    var below, above := t * (x - lo) + u * (y - lo), t * (hi - x) + u * (hi - y);
    assert t * x + u * y == lo + below;
    assert t * x + u * y == hi - above;
    WeightedPositive(t, x - lo, y - lo);
    WeightedPositive(t, hi - x, hi - y);
  }

  /** A convex combination of two positive numbers is positive. */
  lemma WeightedPositive(t: real, a: real, b: real)
    requires 0.0 <= t <= 1.0 && 0.0 < a && 0.0 < b
    ensures t * a + (1.0 - t) * b > 0.0
  {
    if t == 0.0 {
      assert t * a + (1.0 - t) * b == b;
    } else {
      assert t * a > 0.0;
      assert (1.0 - t) * b >= 0.0;
    }
  }
}
