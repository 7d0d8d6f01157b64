/**
  The verdict of one alert cycle (gemini_alert.py:135-137): `success` asks
  whether the after-value is present and below the threshold; `improved`
  compares after with before, but only when both are truthy in Python's
  sense, so a reading of exactly 0.0 counts as missing there.
*/
module Evaluation {
  import opened Common

  datatype Verdict = Verdict(success: bool, improved: bool)

  /** Python truthiness of an optional float: present and not zero. */
  predicate FloatTruthy(x: Option<real>)
  {
    x.Some? && x.value != 0.0
  }

  /** `success` and `improved` exactly as `handle_alert` computes them. */
  function Evaluate(before: Option<real>, after: Option<real>, threshold: real): (v: Verdict)
    ensures v.success <==> after.Some? && after.value < threshold
    ensures v.improved <==> before.Some? && after.Some? && before.value != 0.0 && after.value != 0.0 && after.value < before.value
    ensures before.None? || after.None? ==> !v.improved
    ensures before == Some(0.0) || after == Some(0.0) ==> !v.improved
  {
    Verdict(
      after.Some? && after.value < threshold,
      if FloatTruthy(before) && FloatTruthy(after) then after.value < before.value else false)
  }

  /**
    The intended verdict, with presence tested by `is not None` on both sides.
    It differs from the verdict as written only in `improved`, and only when a
    reading of 0.0 takes part in a real decrease.
  */
  function EvaluateIntended(before: Option<real>, after: Option<real>, threshold: real): (v: Verdict)
    ensures v.success <==> after.Some? && after.value < threshold
    ensures v.improved <==> before.Some? && after.Some? && after.value < before.value
    ensures v.success == Evaluate(before, after, threshold).success
    ensures v.improved != Evaluate(before, after, threshold).improved <==>
      before.Some? && after.Some? && after.value < before.value && (before.value == 0.0 || after.value == 0.0)
  {
    Verdict(
      after.Some? && after.value < threshold,
      before.Some? && after.Some? && after.value < before.value)
  }

  /** Usage fell from 95 to 70 under a threshold of 80: success and improvement. */
  lemma DropBelowThreshold()
    ensures Evaluate(Some(95.0), Some(70.0), 80.0) == Verdict(true, true)
  {
  }

  /** Without a before-value, success is still judged but improvement is false. */
  lemma MissingBeforeIsNotImproved()
    ensures Evaluate(None, Some(70.0), 80.0) == Verdict(true, false)
  {
  }

  /**
    Usage driven down to exactly 0.0 is a success but, as written, not an
    improvement, while the intended verdict reports it improved.
  */
  lemma DropToZeroIsNotImproved()
    ensures Evaluate(Some(95.0), Some(0.0), 90.0) == Verdict(true, false)
    ensures EvaluateIntended(Some(95.0), Some(0.0), 90.0) == Verdict(true, true)
  {
  }
}
