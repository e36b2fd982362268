/** The teaching credit score of the credit-triggered note: four inputs are
    clamped and combined with positive weights.  The value here is the one
    computed before the final rounding to two decimals. */
module CreditRiskScore {

  const WeightIcr: real := 25.0
  const WeightLr: real := 20.0
  const WeightRating: real := 40.0
  const WeightPrice: real := 15.0

  function Min(a: real, b: real): real { if a <= b then a else b }
  function Max(a: real, b: real): real { if a >= b then a else b }

  /** The score of interest-coverage ratio `icr`, liquidity ratio `lr`,
      rating score `rating` and price-to-par `ptp`.  The two ratios are only
      capped above (at 5), the rating is clamped to [0, 100] and the price to
      [0, 2]; so the score never exceeds 115 and is non-negative as soon as
      neither ratio is negative. */
  function RiskScore(icr: real, lr: real, rating: real, ptp: real): (score: real)
    ensures score <= WeightIcr + WeightLr + WeightRating + 2.0 * WeightPrice
    ensures icr >= 0.0 && lr >= 0.0 ==> score >= 0.0
  {
    var icr' := Min(icr, 5.0);
    var lr' := Min(lr, 5.0);
    var rating' := Min(Max(rating, 0.0), 100.0);
    var ptp' := Min(Max(ptp, 0.0), 2.0);
    WeightIcr * (icr' / 5.0) + WeightLr * (lr' / 5.0) + WeightRating * (rating' / 100.0) + WeightPrice * ptp'
  }

  /** The score is the weighted sum of the clamped inputs. */
  lemma ScoreOfClampedInputs(icr: real, lr: real, rating: real, ptp: real)
    requires icr <= 5.0 && lr <= 5.0 && 0.0 <= rating <= 100.0 && 0.0 <= ptp <= 2.0
    ensures RiskScore(icr, lr, rating, ptp) == 5.0 * icr + 4.0 * lr + 0.4 * rating + 15.0 * ptp
  {
  }

  /** Raising any one input never lowers the score. */
  lemma ScoreMonotone(icr: real, lr: real, rating: real, ptp: real,
                      icr2: real, lr2: real, rating2: real, ptp2: real)
    requires icr <= icr2 && lr <= lr2 && rating <= rating2 && ptp <= ptp2
    ensures RiskScore(icr, lr, rating, ptp) <= RiskScore(icr2, lr2, rating2, ptp2)
  {
  }

  /** Saturation: beyond its cap an input no longer changes the score. */
  lemma ScoreSaturates(icr: real, lr: real, rating: real, ptp: real)
    ensures icr >= 5.0 ==> RiskScore(icr, lr, rating, ptp) == RiskScore(5.0, lr, rating, ptp)
    ensures lr >= 5.0 ==> RiskScore(icr, lr, rating, ptp) == RiskScore(icr, 5.0, rating, ptp)
    ensures rating >= 100.0 ==> RiskScore(icr, lr, rating, ptp) == RiskScore(icr, lr, 100.0, ptp)
    ensures ptp >= 2.0 ==> RiskScore(icr, lr, rating, ptp) == RiskScore(icr, lr, rating, 2.0)
    ensures rating <= 0.0 ==> RiskScore(icr, lr, rating, ptp) == RiskScore(icr, lr, 0.0, ptp)
    ensures ptp <= 0.0 ==> RiskScore(icr, lr, rating, ptp) == RiskScore(icr, lr, rating, 0.0)
  {
  }

  /** The range documented as 0 to 100 is not what the formula gives: the
      top score is 115, and negative ratios give negative scores. */
  lemma ScoreLeavesDocumentedRange()
    ensures RiskScore(5.0, 5.0, 100.0, 2.0) == 115.0
    ensures RiskScore(-10.0, 0.0, 0.0, 0.0) == -50.0
  {
  }

  /** The sample company of the demo. */
  lemma SampleScore()
    ensures RiskScore(2.5, 1.8, 65.0, 0.87) == 58.75
  {
  }
}
