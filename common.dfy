/** Small shared vocabulary: an Option for values the source reports as NaN
    or None, and the order statistics and means the pricing scripts take of
    price paths and payoff lists. */
module Common {

  datatype Option<T> = None | Some(value: T)

  /** The smallest element of a non-empty sequence (Python's `min`, numpy's `np.min`). */
  function SeqMin(s: seq<real>): (m: real)
    requires |s| > 0
    ensures m in s
    ensures forall k :: 0 <= k < |s| ==> m <= s[k]
  {
    if |s| == 1 then s[0]
    else
      var rest := SeqMin(s[1..]);
      if s[0] <= rest then s[0] else rest
  }

  /** The largest element of a non-empty sequence (Python's `max`, numpy's `np.max`). */
  function SeqMax(s: seq<real>): (m: real)
    requires |s| > 0
    ensures m in s
    ensures forall k :: 0 <= k < |s| ==> s[k] <= m
  {
    if |s| == 1 then s[0]
    else
      var rest := SeqMax(s[1..]);
      if s[0] >= rest then s[0] else rest
  }

  function Min(a: int, b: int): int { if a <= b then a else b }
  function Max(a: int, b: int): int { if a >= b then a else b }

  function Sum(s: seq<real>): real
  {
    if |s| == 0 then 0.0 else Sum(s[..|s| - 1]) + s[|s| - 1]
  }

  /** numpy's `np.mean`: the arithmetic mean, NaN (None) for an empty list. */
  function Mean(s: seq<real>): (r: Option<real>)
    ensures r.None? <==> |s| == 0
    ensures r.Some? ==> r.value * (|s| as real) == Sum(s)
  {
    if |s| == 0 then None else Some(Sum(s) / (|s| as real))
  }

  /** A sum of values between `lo` and `hi` lies between `|s|` times each. */
  lemma {:induction false} SumBounds(s: seq<real>, lo: real, hi: real)
    requires forall k :: 0 <= k < |s| ==> lo <= s[k] <= hi
    ensures (|s| as real) * lo <= Sum(s) <= (|s| as real) * hi
  {
    if |s| > 0 {
      SumBounds(s[..|s| - 1], lo, hi);
    }
  }

  /** The mean of a non-empty list lies between its smallest and its largest
      value. */
  lemma MeanBounds(s: seq<real>)
    requires |s| > 0
    ensures SeqMin(s) <= Mean(s).value <= SeqMax(s)
  {
    MeanBetween(s, SeqMin(s), SeqMax(s));
  }

  /** The mean of values between `lo` and `hi` lies between them. */
  lemma MeanBetween(s: seq<real>, lo: real, hi: real)
    requires |s| > 0
    requires forall k :: 0 <= k < |s| ==> lo <= s[k] <= hi
    ensures lo <= Mean(s).value <= hi
  {
    SumBounds(s, lo, hi);
    RatioBounds(Sum(s), |s| as real, Mean(s).value, lo, hi);
  }

  /** A ratio `m` of `x` to a positive `n` lies between `lo` and `hi` when `x`
      lies between `n` times each. */
  lemma RatioBounds(x: real, n: real, m: real, lo: real, hi: real)
    requires n > 0.0 && m * n == x && n * lo <= x <= n * hi
    ensures lo <= m <= hi
  {
    assert (m - lo) * n == x - n * lo;
    assert (hi - m) * n == n * hi - x;
  }
}
