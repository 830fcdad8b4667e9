/** pandas' `Series.ewm(alpha, adjust=False).mean()`, the exponential smoothing
    behind every EMA, RSI, ATR and ADX column, including how it treats undefined
    (NaN) observations: leading NaNs keep the mean undefined, and a NaN after the
    first observation holds the mean and lets the weight of the old mean decay. */
module Smoothing {
  import opened Wrappers

  /** The running state of the smoother: the current mean (undefined until the
      first defined observation) and the weight the mean carries against the
      next observation. */
  datatype EwmState = EwmState(mean: Option<real>, oldWeight: real)

  /** The smoothing factor: `2 / (span + 1)` for a span, `1 / (com + 1)` for a centre of mass. */
  predicate ValidAlpha(alpha: real) { 0.0 < alpha <= 1.0 }

  const Initial := EwmState(None, 1.0)

  function Step(st: EwmState, x: Option<real>, alpha: real): (r: EwmState)
    requires ValidAlpha(alpha) && st.oldWeight >= 0.0
    ensures r.oldWeight >= 0.0
  {
    match st.mean
    case None => if x.Some? then EwmState(x, 1.0) else st
    case Some(w) =>
      var ow := st.oldWeight * (1.0 - alpha);
      NonNegativeProduct(st.oldWeight, 1.0 - alpha);
      if x.Some? then EwmState(Some((ow * w + alpha * x.value) / (ow + alpha)), 1.0)
      else EwmState(st.mean, ow)
  }

  /** The state after observing all of `xs`. */
  function StateAfter(xs: seq<Option<real>>, alpha: real): (st: EwmState)
    requires ValidAlpha(alpha)
    ensures st.oldWeight >= 0.0
  {
    if xs == [] then Initial else Step(StateAfter(xs[..|xs| - 1], alpha), xs[|xs| - 1], alpha)
  }

  /** The smoothed series: position `i` holds the mean after observing `xs[..i+1]`. */
  function Ewm(xs: seq<Option<real>>, alpha: real): (ys: seq<Option<real>>)
    requires ValidAlpha(alpha)
    ensures |ys| == |xs|
  {
    seq(|xs|, i requires 0 <= i < |xs| => StateAfter(xs[..i + 1], alpha).mean)
  }

  /** The first position of the smoothed series is the first observation itself. */
  lemma EwmFirst(xs: seq<Option<real>>, alpha: real)
    requires ValidAlpha(alpha) && |xs| > 0
    ensures Ewm(xs, alpha)[0] == xs[0]
  {
    var p := xs[..1];
    assert p[..0] == [] && p[0] == xs[0];
    assert StateAfter(p, alpha) == Step(Initial, xs[0], alpha);
  }

  /** Every defined observation of `xs` lies in `[lo, hi]`. */
  ghost predicate Within(xs: seq<Option<real>>, lo: real, hi: real)
  {
    forall k :: 0 <= k < |xs| && xs[k].Some? ==> lo <= xs[k].value <= hi
  }

  lemma NonNegativeProduct(a: real, b: real)
    requires a >= 0.0 && b >= 0.0
    ensures a * b >= 0.0
  {
  }

  /** One normalised update is a convex combination of the old mean and the observation. */
  lemma ConvexUpdate(ow: real, w: real, alpha: real, x: real, lo: real, hi: real)
    requires ow >= 0.0 && alpha > 0.0
    requires lo <= w <= hi && lo <= x <= hi
    ensures lo <= (ow * w + alpha * x) / (ow + alpha) <= hi
  {
    var d := ow + alpha;
    var n := ow * w + alpha * x;
    NonNegativeProduct(ow, w - lo);
    NonNegativeProduct(ow, hi - w);
    NonNegativeProduct(alpha, x - lo);
    NonNegativeProduct(alpha, hi - x);
    assert lo * d == ow * lo + alpha * lo;
    assert hi * d == ow * hi + alpha * hi;
    assert lo * d <= n <= hi * d;
    assert n / d * d == n;
  }

  /** The mean becomes defined exactly at the first defined observation. */
  lemma {:induction false} MeanDefinedIff(xs: seq<Option<real>>, alpha: real)
    requires ValidAlpha(alpha)
    ensures StateAfter(xs, alpha).mean.Some? <==> exists k :: 0 <= k < |xs| && xs[k].Some?
  {
    if xs != [] {
      var init := xs[..|xs| - 1];
      MeanDefinedIff(init, alpha);
      assert forall k :: 0 <= k < |init| ==> init[k] == xs[k];
      if StateAfter(init, alpha).mean.Some? {
        var k :| 0 <= k < |init| && init[k].Some?;
        assert xs[k].Some?;
      }
    }
  }

  /** One step keeps the mean within the range of what has been observed. */
  lemma StepWithin(st: EwmState, x: Option<real>, alpha: real, lo: real, hi: real)
    requires ValidAlpha(alpha) && st.oldWeight >= 0.0
    requires st.mean.Some? ==> lo <= st.mean.value <= hi
    requires x.Some? ==> lo <= x.value <= hi
    ensures Step(st, x, alpha).mean.Some? ==> lo <= Step(st, x, alpha).mean.value <= hi
  {
    if st.mean.Some? && x.Some? {
      var ow := st.oldWeight * (1.0 - alpha);
      NonNegativeProduct(st.oldWeight, 1.0 - alpha);
      ConvexUpdate(ow, st.mean.value, alpha, x.value, lo, hi);
    }
  }

  /** The mean never leaves the range of the observations it has seen. */
  lemma {:induction false} MeanWithin(xs: seq<Option<real>>, alpha: real, lo: real, hi: real)
    requires ValidAlpha(alpha)
    requires Within(xs, lo, hi)
    ensures StateAfter(xs, alpha).mean.Some? ==> lo <= StateAfter(xs, alpha).mean.value <= hi
  {
    if xs != [] {
      var init := xs[..|xs| - 1];
      assert forall k :: 0 <= k < |init| ==> init[k] == xs[k];
      MeanWithin(init, alpha, lo, hi);
      StepWithin(StateAfter(init, alpha), xs[|xs| - 1], alpha, lo, hi);
    }
  }

  /** Every position of the smoothed series lies in the range of the observations. */
  lemma EwmWithin(xs: seq<Option<real>>, alpha: real, lo: real, hi: real)
    requires ValidAlpha(alpha)
    requires Within(xs, lo, hi)
    ensures forall i :: 0 <= i < |xs| && Ewm(xs, alpha)[i].Some? ==>
      lo <= Ewm(xs, alpha)[i].value <= hi
  {
    forall i | 0 <= i < |xs| && Ewm(xs, alpha)[i].Some?
      ensures lo <= Ewm(xs, alpha)[i].value <= hi
    {
      var p := xs[..i + 1];
      assert forall k :: 0 <= k < |p| ==> p[k] == xs[k];
      MeanWithin(p, alpha, lo, hi);
    }
  }

  /** Position `i` of the smoothed series is defined iff some observation up to `i` is. */
  lemma EwmDefinedIff(xs: seq<Option<real>>, alpha: real, i: nat)
    requires ValidAlpha(alpha) && i < |xs|
    ensures Ewm(xs, alpha)[i].Some? <==> exists k :: 0 <= k <= i && xs[k].Some?
  {
    var p := xs[..i + 1];
    assert forall k :: 0 <= k < |p| ==> p[k] == xs[k];
    MeanDefinedIff(p, alpha);
  }

  /** The textbook recurrence: `next` moves from `prev` by `alpha` times the gap to `x`. */
  predicate Recurs(prev: real, x: real, alpha: real, next: real)
  {
    next == prev + alpha * (x - prev)
  }

  /** On a series without undefined cells the smoother is the textbook recurrence
      y_0 = x_0, y_i = y_(i-1) + alpha * (x_i - y_(i-1)), and the weight of the old mean is back to 1 after each step. */
  lemma {:induction false} FullyObservedState(xs: seq<Option<real>>, alpha: real)
    requires ValidAlpha(alpha) && |xs| > 0
    requires forall k :: 0 <= k < |xs| ==> xs[k].Some?
    ensures StateAfter(xs, alpha).mean.Some? && StateAfter(xs, alpha).oldWeight == 1.0
    ensures |xs| == 1 ==> StateAfter(xs, alpha).mean.value == xs[0].value
    ensures |xs| > 1 ==>
      var y := StateAfter(xs[..|xs| - 1], alpha).mean;
      y.Some? &&
      Recurs(y.value, xs[|xs| - 1].value, alpha, StateAfter(xs, alpha).mean.value)
  {
    var init := xs[..|xs| - 1];
    if |xs| > 1 {
      assert forall k :: 0 <= k < |init| ==> init[k] == xs[k];
      FullyObservedState(init, alpha);
      var w := StateAfter(init, alpha).mean.value;
      var x := xs[|xs| - 1].value;
      var ow := 1.0 - alpha;
      assert ow + alpha == 1.0;
      assert (ow * w + alpha * x) / (ow + alpha) == w + alpha * (x - w);
    }
  }

  /** With every input observed, the smoothed series starts at the first input and
      then moves by alpha times the gap between the next input and the previous value. */
  lemma EwmRecurrence(xs: seq<Option<real>>, alpha: real, i: nat)
    requires ValidAlpha(alpha) && i < |xs|
    requires forall k :: 0 <= k < |xs| ==> xs[k].Some?
    ensures Ewm(xs, alpha)[i].Some?
    ensures i == 0 ==> Ewm(xs, alpha)[0].value == xs[0].value
    ensures i > 0 ==>
      && Ewm(xs, alpha)[i - 1].Some?
      && Recurs(Ewm(xs, alpha)[i - 1].value, xs[i].value, alpha, Ewm(xs, alpha)[i].value)
  {
    var p := xs[..i + 1];
    assert forall k :: 0 <= k < |p| ==> p[k] == xs[k];
    FullyObservedState(p, alpha);
    if i > 0 {
      assert p[..|p| - 1] == xs[..i];
    }
  }
}
