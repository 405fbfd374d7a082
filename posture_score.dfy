/**
 * The posture badness score of backend/src/posture_engine.py: four geometric
 * measurements are each mapped into a badness in [0, 1] by a piecewise-linear
 * normaliser, combined by a weighted sum and clipped to [0, 1].
 * Floating point is modelled by Dafny's exact `real`.
 */
module PostureScore {

  /** The four measurements `compute_posture_metrics` hands to the scorer. */
  datatype Metrics = Metrics(backAngle: real, neckAngle: real, headForwardCm: real, shoulderTiltDeg: real)

  // Normaliser bounds (good_max, bad_max) per measurement.
  const BackGoodMax: real := 8.0
  const BackBadMax: real := 20.0
  const NeckGoodMax: real := 50.0
  const NeckBadMax: real := 80.0
  const HeadGoodMax: real := 2.0
  const HeadBadMax: real := 8.0
  const TiltGoodMax: real := 5.0
  const TiltBadMax: real := 20.0

  // Weights of the sum: only the neck angle currently contributes.
  const BackWeight: real := 0.0
  const NeckWeight: real := 1.0
  const HeadWeight: real := 0.0
  const TiltWeight: real := 0.0

  function Abs(x: real): (r: real)
    ensures r >= 0.0 && (r == x || r == -x)
  {
    if x < 0.0 then -x else x
  }

  /** `np.clip(x, lo, hi)`. */
  function Clip(x: real, lo: real, hi: real): (r: real)
    requires lo <= hi
    ensures lo <= r <= hi
    ensures lo <= x <= hi ==> r == x
  {
    if x < lo then lo else if x > hi then hi else x
  }

  /**
   * `norm_bad`: 0 up to `goodMax`, 1 from `badMax` on, linear in between.
   * The linear branch is reached only when goodMax < x < badMax, so it never
   * divides by zero, whatever the bounds.
   */
  function NormBad(x: real, goodMax: real, badMax: real): (r: real)
    ensures 0.0 <= r <= 1.0
  {
    if x <= goodMax then 0.0
    else if x >= badMax then 1.0
    else
      InteriorBetween(x, goodMax, badMax);
      (x - goodMax) / (badMax - goodMax)
  }

  lemma InteriorBetween(x: real, goodMax: real, badMax: real)
    requires goodMax < x < badMax
    ensures 0.0 < (x - goodMax) / (badMax - goodMax) < 1.0
  {
    var d, n := badMax - goodMax, x - goodMax;
    calc {
      n / d;
    <  { assert n < d; }
      d / d;
    ==
      1.0;
    }
  }

  /** The three regions of `norm_bad`, stated from the caller's side. */
  lemma NormBadRegions(x: real, goodMax: real, badMax: real)
    ensures x <= goodMax ==> NormBad(x, goodMax, badMax) == 0.0
    ensures goodMax < x && badMax <= x ==> NormBad(x, goodMax, badMax) == 1.0
    ensures goodMax < x < badMax ==>
      0.0 < NormBad(x, goodMax, badMax) < 1.0 &&
      NormBad(x, goodMax, badMax) * (badMax - goodMax) == x - goodMax
  {
    if goodMax < x < badMax {
      InteriorBetween(x, goodMax, badMax);
    }
  }

  /** `norm_bad` never decreases as the measurement grows, for any bounds. */
  lemma {:induction false} NormBadMonotone(x: real, y: real, goodMax: real, badMax: real)
    requires x <= y
    ensures NormBad(x, goodMax, badMax) <= NormBad(y, goodMax, badMax)
  {
    if goodMax < x < badMax && goodMax < y < badMax {
      var d := badMax - goodMax;
      assert (y - goodMax) / d - (x - goodMax) / d == (y - x) / d;
    }
  }

  /** The weighted sum before clipping. */
  function WeightedBadness(m: Metrics): real
  {
    BackWeight * NormBad(m.backAngle, BackGoodMax, BackBadMax)
    + NeckWeight * NormBad(m.neckAngle, NeckGoodMax, NeckBadMax)
    + HeadWeight * NormBad(Abs(m.headForwardCm), HeadGoodMax, HeadBadMax)
    + TiltWeight * NormBad(Abs(m.shoulderTiltDeg), TiltGoodMax, TiltBadMax)
  }

  /** `compute_bad_posture_score`: the clipped weighted sum. */
  function BadPostureScore(m: Metrics): (r: real)
    ensures 0.0 <= r <= 1.0
  {
    Clip(WeightedBadness(m), 0.0, 1.0)
  }

  /** With the current weights the score is exactly the neck badness. */
  lemma ScoreIsNeckBadness(m: Metrics)
    ensures BadPostureScore(m) == NormBad(m.neckAngle, NeckGoodMax, NeckBadMax)
  {
  }

  /** Back angle, head-forward distance and shoulder tilt have no effect on the score. */
  lemma ScoreIgnoresOtherMeasurements(m: Metrics, m': Metrics)
    requires m.neckAngle == m'.neckAngle
    ensures BadPostureScore(m) == BadPostureScore(m')
  {
    ScoreIsNeckBadness(m);
    ScoreIsNeckBadness(m');
  }

  /** Head-forward and tilt badness read only absolute values: flipping their sign changes nothing. */
  lemma ScoreSignSymmetric(m: Metrics)
    ensures BadPostureScore(m.(headForwardCm := -m.headForwardCm, shoulderTiltDeg := -m.shoulderTiltDeg))
         == BadPostureScore(m)
  {
  }

  /** A larger neck angle never lowers the score. */
  lemma ScoreMonotoneInNeck(m: Metrics, neck: real)
    requires m.neckAngle <= neck
    ensures BadPostureScore(m) <= BadPostureScore(m.(neckAngle := neck))
  {
    ScoreIsNeckBadness(m);
    ScoreIsNeckBadness(m.(neckAngle := neck));
    NormBadMonotone(m.neckAngle, neck, NeckGoodMax, NeckBadMax);
  }
}
