/**
 * The z-score computer (qc_core.py, compute_zscore): the deviation of one
 * measurement from the reference mean, in units of the reference SD.
 * `None` models every input the source cannot use: an absent value, a value
 * that float() rejects, and NaN.
 */
module ZScore {
  import opened Wrappers

  function Abs(x: real): real { if x < 0.0 then -x else x }

  /**
   * Missing exactly when the value, the mean or the SD is unusable or the SD is
   * zero; otherwise the standardised deviation, which maps back to the value
   * (no clamping).
   */
  function ComputeZScore(value: Option<real>, mean: Option<real>, sd: Option<real>): (z: Option<real>)
    ensures z.None? <==> value.None? || mean.None? || sd.None? || sd.value == 0.0
    ensures z.Some? ==> z.value * sd.value + mean.value == value.value
  {
    if value.None? then None
    else if sd.None? || sd.value == 0.0 then None
    else if mean.None? then None
    else Some((value.value - mean.value) / sd.value)
  }

  /**
   * With a positive SD the z-score reads as "k SDs from the mean": it is on the
   * side of the mean the value is on, and |z| >= k exactly when the value is at
   * least k SDs away.
   */
  lemma {:induction false} ZScoreMeasuresDeviation(v: real, mean: real, sd: real, k: real)
    requires sd > 0.0
    ensures var z := ComputeZScore(Some(v), Some(mean), Some(sd)).value;
      (z > 0.0 <==> v > mean) && (z < 0.0 <==> v < mean) &&
      (Abs(z) >= k <==> Abs(v - mean) >= k * sd)
  {
    var z := ComputeZScore(Some(v), Some(mean), Some(sd)).value;
    assert z * sd == v - mean;
    assert Abs(z) * sd == Abs(v - mean);
    if Abs(z) >= k {
      assert Abs(z) * sd >= k * sd;
    } else {
      assert Abs(z) * sd < k * sd;
    }
  }
}
