/** Sums, extrema and rolling windows over real-valued series. */
module Windows {
  import opened Wrappers

  function Sum(s: seq<real>): real
  {
    if s == [] then 0.0 else Sum(s[..|s| - 1]) + s[|s| - 1]
  }

  function Max2(a: real, b: real): real { if a >= b then a else b }

  function Min2(a: real, b: real): real { if a <= b then a else b }

  function Abs(x: real): real { if x < 0.0 then -x else x }

  /** Largest element of a non-empty sequence. */
  function Max(s: seq<real>): (m: real)
    requires |s| > 0
    ensures forall k :: 0 <= k < |s| ==> s[k] <= m
    ensures exists k :: 0 <= k < |s| && s[k] == m
  {
    if |s| == 1 then s[0]
    else
      var m' := Max(s[..|s| - 1]);
      assert forall k :: 0 <= k < |s| - 1 ==> s[..|s| - 1][k] == s[k];
      Max2(m', s[|s| - 1])
  }

  /** Smallest element of a non-empty sequence. */
  function Min(s: seq<real>): (m: real)
    requires |s| > 0
    ensures forall k :: 0 <= k < |s| ==> m <= s[k]
    ensures exists k :: 0 <= k < |s| && s[k] == m
  {
    if |s| == 1 then s[0]
    else
      var m' := Min(s[..|s| - 1]);
      assert forall k :: 0 <= k < |s| - 1 ==> s[..|s| - 1][k] == s[k];
      Min2(m', s[|s| - 1])
  }

  /** A series with every cell defined. */
  function Defined(s: seq<real>): (r: seq<Option<real>>)
    ensures |r| == |s|
    ensures forall k :: 0 <= k < |s| ==> r[k] == Some(s[k])
  {
    seq(|s|, k requires 0 <= k < |s| => Some(s[k]))
  }

  /** The `window` values ending at position `t`, as pandas' `rolling(window)` sees them. */
  function WindowAt(s: seq<real>, t: nat, window: nat): (w: seq<real>)
    requires t < |s| && window <= t + 1
    ensures |w| == window
  {
    s[t + 1 - window..t + 1]
  }

  /** `s.rolling(window).mean()`: undefined until a full window is available.
      A zero-length window has no observation, so its mean is undefined too. */
  function RollingMean(s: seq<real>, window: nat): (r: seq<Option<real>>)
    ensures |r| == |s|
    ensures forall t :: 0 <= t < |s| ==>
      (r[t].Some? <==> 0 < window <= t + 1)
    ensures forall t :: 0 <= t < |s| && 0 < window <= t + 1 ==>
      r[t].value * (window as real) == Sum(WindowAt(s, t, window))
  {
    seq(|s|, t requires 0 <= t < |s| =>
      if window == 0 || t + 1 < window then None
      else Some(Sum(WindowAt(s, t, window)) / window as real))
  }

  /** The sum of a sequence of non-negative values is non-negative, and is zero only when every value is. */
  lemma {:induction false} SumNonNegative(s: seq<real>)
    requires forall k :: 0 <= k < |s| ==> s[k] >= 0.0
    ensures Sum(s) >= 0.0
    ensures Sum(s) == 0.0 <==> forall k :: 0 <= k < |s| ==> s[k] == 0.0
  {
    if s != [] {
      var init := s[..|s| - 1];
      assert forall k :: 0 <= k < |init| ==> init[k] == s[k];
      SumNonNegative(init);
    }
  }
}
