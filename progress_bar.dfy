/** `ProgressBar` of src/components/ui/progress-bar.tsx: the width of the filled
    part, in percent, for a given value. */
module ProgressBar {
  /** `Math.min(100, Math.max(0, value))`. */
  function FillWidth(value: real): (w: real)
    ensures 0.0 <= w <= 100.0
    ensures 0.0 <= value <= 100.0 ==> w == value
    ensures value < 0.0 ==> w == 0.0
    ensures value > 100.0 ==> w == 100.0
  {
    if value > 100.0 then 100.0 else if value < 0.0 then 0.0 else value
  }

  /** A larger value never draws a shorter bar. */
  lemma FillWidthMonotone(a: real, b: real)
    requires a <= b
    ensures FillWidth(a) <= FillWidth(b)
  {
  }

  /** Clamping a width again changes nothing. */
  lemma FillWidthIdempotent(value: real)
    ensures FillWidth(FillWidth(value)) == FillWidth(value)
  {
  }
}
