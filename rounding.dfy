/** Two-decimal rounding, the only non-linear step of the layout and
    pricing engine (src/utils/calculations.js). */
module Rounding {

  /** `Math.round(x * 100) / 100`, and equally `parseFloat(x.toFixed(2))`:
      x rounded half up to a whole number of hundredths. */
  function Round2(x: real): (r: real)
    ensures -0.005 < r - x <= 0.005
  {
    ((x * 100.0 + 0.5).Floor as real) / 100.0
  }

  /** Rounding moves a value by at most half a hundredth. */
  lemma Round2Close(x: real)
    ensures -0.005 < Round2(x) - x <= 0.005
  {
  }

  /** Rounding never reverses the order of two values. */
  lemma Round2Monotone(x: real, y: real)
    requires x <= y
    ensures Round2(x) <= Round2(y)
  {
    assert (x * 100.0 + 0.5).Floor <= (y * 100.0 + 0.5).Floor;
  }

  /** The sign of a rounded value: it is negative exactly when the value
      lies below -0.005, and zero exactly on [-0.005, 0.005). */
  lemma Round2Sign(x: real)
    ensures Round2(x) < 0.0 <==> x < -0.005
    ensures Round2(x) == 0.0 <==> -0.005 <= x < 0.005
    ensures Round2(x) > 0.0 <==> x >= 0.005
  {
  }

  /** A whole number of hundredths is left unchanged. */
  lemma Round2Cents(k: int)
    ensures Round2(k as real / 100.0) == k as real / 100.0
  {
    var y := k as real / 100.0;
    assert y * 100.0 == k as real;
    assert (y * 100.0 + 0.5).Floor == k;
  }

  /** Rounding twice is rounding once. */
  lemma Round2Idempotent(x: real)
    ensures Round2(Round2(x)) == Round2(x)
  {
    Round2Cents((x * 100.0 + 0.5).Floor);
  }
}
