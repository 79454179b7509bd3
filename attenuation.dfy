/**
  The numeric core shared by both AudioFocus components: Unity's clamped
  linear interpolation (Mathf.Lerp), the per-tick volume ramp built on it,
  the attenuated target level, and the field-of-view comparison.
  Volumes and factors are exact reals; IEEE float rounding is not modelled.
 */
module Attenuation {

  /** The components' private `rampSpeed`, in interpolation units per second. */
  const RampSpeed: real := 200.0

  /** x lies on the closed segment between a and b, in either order. */
  predicate Between(x: real, a: real, b: real) {
    (a <= x <= b) || (b <= x <= a)
  }

  lemma MulNonNeg(x: real, y: real)
    requires x >= 0.0 && y >= 0.0
    ensures x * y >= 0.0
  {
  }

  /** The interpolated point a + (b - a) * c, for c in [0, 1], lies between a and b. */
  lemma StepWithin(a: real, b: real, c: real)
    requires 0.0 <= c <= 1.0
    ensures Between(a + (b - a) * c, a, b)
  {
    if a <= b {
      MulNonNeg(b - a, c);
      MulNonNeg(b - a, 1.0 - c);
    } else {
      MulNonNeg(a - b, c);
      MulNonNeg(a - b, 1.0 - c);
    }
  }

  /** Mathf.Clamp01: t saturated into [0, 1]. */
  function Clamp01(t: real): (r: real)
    ensures 0.0 <= r <= 1.0
    ensures 0.0 <= t <= 1.0 ==> r == t
    ensures t > 1.0 ==> r == 1.0
    ensures t < 0.0 ==> r == 0.0
  {
    if t < 0.0 then 0.0 else if t > 1.0 then 1.0 else t
  }

  /**
    Mathf.Lerp(a, b, t) = a + (b - a) * Clamp01(t). The interpolation
    parameter saturates, so the result never leaves the segment [a, b].
   */
  function Lerp(a: real, b: real, t: real): (r: real)
    ensures Between(r, a, b)
    ensures t >= 1.0 ==> r == b
    ensures t <= 0.0 ==> r == a
  {
    var c := Clamp01(t);
    StepWithin(a, b, c);
    a + (b - a) * c
  }

  /**
    AdjustVolume's new level: Mathf.Lerp(startVol, endVol, rampSpeed * dt).
    With rampSpeed = 200 any frame time of 5 ms or more saturates the
    interpolation, so the volume lands on the target in a single step.
   */
  function Ramp(startVol: real, endVol: real, dt: real): (r: real)
    ensures Between(r, startVol, endVol)
    ensures startVol == endVol ==> r == startVol
    ensures dt >= 0.005 ==> r == endVol
    ensures dt <= 0.0 ==> r == startVol
  {
    Lerp(startVol, endVol, RampSpeed * dt)
  }

  /**
    The volume after n consecutive ticks that all ramp toward the same
    target with the same frame time (the inputs of the tick unchanged).
   */
  function Settle(startVol: real, endVol: real, dt: real, n: nat): (r: real)
    ensures Between(r, startVol, endVol)
    ensures n >= 1 && dt >= 0.005 ==> r == endVol
    decreases n
  {
    if n == 0 then startVol else Ramp(Settle(startVol, endVol, dt, n - 1), endVol, dt)
  }

  /**
    The ducked level initialVol * volAtt. Within volAtt's inspector range and
    for a non-negative baseline it lies between 1% of the baseline and the
    baseline; the default volAtt = 1.0 leaves the baseline as it is.
   */
  function Attenuated(initialVol: real, volAtt: real): (r: real)
    ensures 0.01 <= volAtt <= 1.0 && initialVol >= 0.0 ==> 0.01 * initialVol <= r <= initialVol
    ensures volAtt == 1.0 ==> r == initialVol
  {
    if 0.01 <= volAtt <= 1.0 && initialVol >= 0.0 then
      MulNonNeg(initialVol, volAtt - 0.01);
      MulNonNeg(initialVol, 1.0 - volAtt);
      initialVol * volAtt
    else
      initialVol * volAtt
  }

  /**
    The view test: Vector3.Angle(camera forward, direction to the source),
    given here as `angle`, compared with the camera's fieldOfView.
   */
  predicate OutOfView(angle: real, fieldOfView: real) {
    angle > fieldOfView
  }
}
