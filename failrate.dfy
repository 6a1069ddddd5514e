/**
 * calculate_fail_rate: two failure percentages of a sample of jobs, one
 * whose denominator leaves retried jobs out and one over all jobs, both in
 * exact real arithmetic (the source's round(..., 2) is not modelled).
 */
module FailRate {

  /** The dictionary {'failRate': ..., 'failRateWithRetries': ...}. */
  datatype FailRates = FailRates(failRate: real, failRateWithRetries: real)

  /** One entry: 100 - passes * 100 / denominator, or 0 when the division by zero is caught. */
  function Percent(passes: int, denominator: int): real
  {
    if denominator == 0 then 0.0
    else 100.0 - (passes * 100) as real / denominator as real
  }

  /** The fail rates of passes successes, retries retries and totals jobs. */
  function FailRateOf(passes: int, retries: int, totals: int): FailRates
  {
    if passes == totals then FailRates(0.0, 0.0)
    else FailRates(Percent(passes, totals - retries), Percent(passes, totals))
  }

  /** The source's loop over the denominators [totals - retries, totals]. */
  method CalculateFailRate(passes: int, retries: int, totals: int) returns (rates: FailRates)
    ensures rates == FailRateOf(passes, retries, totals)
  {
    var results: seq<real>;
    if passes == totals {
      results := [0.0, 0.0];
    } else {
      results := [];
      var denominators := [totals - retries, totals];
      for i := 0 to |denominators|
        invariant |results| == i
        invariant forall k :: 0 <= k < i ==> results[k] == Percent(passes, denominators[k])
      {
        var denominator := denominators[i];
        var result: real;
        if denominator == 0 {
          result := 0.0;
        } else {
          result := 100.0 - (passes * 100) as real / denominator as real;
        }
        results := results + [result];
      }
    }
    rates := FailRates(results[0], results[1]);
  }

  /** With no failures both rates are 0, whatever retries is, even for an empty sample. */
  lemma NoFailuresIsZero(passes: int, retries: int)
    ensures FailRateOf(passes, retries, passes) == FailRates(0.0, 0.0)
  {
  }

  /**
   * A zero denominator zeroes only its own entry: with retries == totals the
   * first rate is 0 while the second is still computed over totals.
   */
  lemma ZeroDenominatorOnlyItsEntry(passes: int, totals: int)
    requires passes != totals
    ensures FailRateOf(passes, totals, totals).failRate == 0.0
    ensures totals != 0 ==>
              FailRateOf(passes, totals, totals).failRateWithRetries
                == 100.0 - (passes * 100) as real / totals as real
  {
  }

  /** A percentage of at most all of the denominator lies in [0, 100]. */
  lemma PercentBounds(passes: int, denominator: int)
    requires 0 <= passes <= denominator
    ensures 0.0 <= Percent(passes, denominator) <= 100.0
  {
    if denominator != 0 {
      var q := (passes * 100) as real / denominator as real;
      assert q * denominator as real == (passes * 100) as real;
      assert q <= 100.0 by {
        if q > 100.0 {
          assert q * denominator as real > 100.0 * denominator as real;
        }
      }
    }
  }

  /** When successes and retries are disjoint parts of the sample both rates lie in [0, 100]. */
  lemma FailRateBounds(passes: int, retries: int, totals: int)
    requires 0 <= passes && 0 <= retries && passes + retries <= totals
    ensures 0.0 <= FailRateOf(passes, retries, totals).failRate <= 100.0
    ensures 0.0 <= FailRateOf(passes, retries, totals).failRateWithRetries <= 100.0
  {
    PercentBounds(passes, totals - retries);
    PercentBounds(passes, totals);
  }

  /**
   * Leaving the retries out of the denominator never gives a higher rate:
   * failRate <= failRateWithRetries.
   */
  lemma FailRateAtMostWithRetries(passes: int, retries: int, totals: int)
    requires 0 <= passes && 0 <= retries && passes + retries <= totals
    ensures FailRateOf(passes, retries, totals).failRate
              <= FailRateOf(passes, retries, totals).failRateWithRetries
  {
    FailRateBounds(passes, retries, totals);
    var d := totals - retries;
    if passes != totals && d != 0 {
      var p := (passes * 100) as real;
      var a := p / d as real;
      var b := p / totals as real;
      assert a * d as real == p;
      assert b * totals as real == p;
      assert a >= 0.0;
      assert a * d as real <= a * totals as real;
      assert (a - b) * totals as real >= 0.0;
    }
  }
}
