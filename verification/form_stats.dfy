/**
 * The dashboard statistics (`GetFormStats`): from the summed visit and
 * submission counters of the user's forms, the submission rate and the
 * bounce rate, both in percent and neither clamped.
 */
module FormStats {
  import opened Wrappers

  datatype Stats = Stats(visits: int, submissions: int, submissionRate: real, bounceRate: real)

  /**
   * The rate arithmetic. A sum the aggregate leaves null is read as 0
   * (`|| 0`), which is also what a sum of 0 stays.
   */
  function GetFormStats(visitsSum: Option<int>, submissionsSum: Option<int>): (r: Stats)
    ensures r.visits == visitsSum.GetOr(0) && r.submissions == submissionsSum.GetOr(0)
    ensures r.submissionRate + r.bounceRate == 100.0
    ensures r.visits <= 0 ==> r.submissionRate == 0.0
    ensures r.visits > 0 ==> r.submissionRate * r.visits as real == r.submissions as real * 100.0
  {
    var visits := visitsSum.GetOr(0);
    var submissions := submissionsSum.GetOr(0);
    var submissionRate := if visits > 0 then (submissions as real / visits as real) * 100.0 else 0.0;
    Stats(visits, submissions, submissionRate, 100.0 - submissionRate)
  }

  /** No data at all: no submissions and a full bounce. */
  lemma NoDataIsFullBounce()
    ensures GetFormStats(None, None) == Stats(0, 0, 0.0, 100.0)
    ensures GetFormStats(Some(0), Some(0)) == Stats(0, 0, 0.0, 100.0)
  {
  }

  /** Counts that are not negative give a rate that is not negative. */
  lemma RateNonNegative(visitsSum: Option<int>, submissionsSum: Option<int>)
    requires visitsSum.GetOr(0) >= 0 && submissionsSum.GetOr(0) >= 0
    ensures GetFormStats(visitsSum, submissionsSum).submissionRate >= 0.0
  {
    var r := GetFormStats(visitsSum, submissionsSum);
    if r.visits > 0 {
      assert r.submissionRate * r.visits as real >= 0.0;
    }
  }

  /**
   * The rates are not clamped: with visits, the submission rate exceeds
   * 100 and the bounce rate is negative exactly when there are more
   * submissions than visits.
   */
  lemma UnclampedRates(visits: int, submissions: int)
    requires visits > 0
    ensures GetFormStats(Some(visits), Some(submissions)).submissionRate > 100.0 <==> submissions > visits
    ensures GetFormStats(Some(visits), Some(submissions)).bounceRate < 0.0 <==> submissions > visits
  {
    var r := GetFormStats(Some(visits), Some(submissions));
    ScaledAbove(r.submissionRate, visits as real, submissions as real);
  }

  /** With `v` positive and `r * v == s * 100`, `r` exceeds 100 exactly when `s` exceeds `v`. */
  lemma ScaledAbove(r: real, v: real, s: real)
    requires v > 0.0 && r * v == s * 100.0
    ensures r > 100.0 <==> s > v
  {
    if r > 100.0 {
      assert (r - 100.0) * v > 0.0;
    } else {
      assert (100.0 - r) * v >= 0.0;
    }
  }

  /** The three worked cases: no traffic, half converted, more submissions than visits. */
  lemma WorkedCases()
    ensures GetFormStats(Some(0), Some(0)).submissionRate == 0.0
    ensures GetFormStats(Some(0), Some(0)).bounceRate == 100.0
    ensures GetFormStats(Some(10), Some(5)).submissionRate == 50.0
    ensures GetFormStats(Some(10), Some(5)).bounceRate == 50.0
    ensures GetFormStats(Some(10), Some(12)).submissionRate == 120.0
    ensures GetFormStats(Some(10), Some(12)).bounceRate == -20.0
  {
  }
}
