/** The per-tick control policy of `Mk2Rev6FanControls.run`: from the CPU
    temperature and the two thresholds to a target fan speed in percent. */
module FanPolicy {
  import opened Optional

  /** Target speed for temperature `temp` with fan-less threshold `fanless`
      and full-speed threshold `maxTemp`: off below `fanless`, full above
      `maxTemp`, a straight line in between. The line divides by
      `maxTemp - fanless`; when that is zero the source raises a division
      error, modelled as `None`. */
  function TargetSpeed(temp: real, fanless: real, maxTemp: real): (r: Option<real>)
    // the division error happens exactly when both thresholds equal the temperature
    ensures r.None? <==> temp == fanless == maxTemp
    // any target produced is a valid percentage
    ensures r.Some? ==> 0.0 <= r.value <= 100.0
  {
    if temp < fanless then
      Some(0.0)
    else if temp > maxTemp then
      Some(100.0)
    else if maxTemp - fanless == 0.0 then
      None
    else
      var speedConst := 100.0 / (maxTemp - fanless);
      LineBounds(temp, fanless, maxTemp);
      Some(speedConst * (temp - fanless))
  }

  /** Multiplying by a non-negative factor keeps an order. */
  lemma MulLe(k: real, a: real, b: real)
    requires 0.0 <= k && a <= b
    ensures k * a <= k * b
  {
    assert k * b - k * a == k * (b - a);
  }

  /** `MulLe` with the factor on the right. */
  lemma MulLeRight(k: real, a: real, b: real)
    requires 0.0 <= k && a <= b
    ensures a * k <= b * k
  {
    MulLe(k, a, b);
  }

  /** A fraction `v`/100 of a non-negative distance `d` lies between 0 and `d`. */
  lemma StepBounds(v: real, d: real)
    requires 0.0 <= v <= 100.0 && 0.0 <= d
    ensures 0.0 <= v / 100.0 * d <= d
  {
    MulLeRight(d, 0.0, v / 100.0);
    MulLeRight(d, v / 100.0, 1.0);
  }

  /** The straight line stays within [0, 100] between the thresholds. */
  lemma LineBounds(temp: real, fanless: real, maxTemp: real)
    requires fanless <= temp <= maxTemp && fanless < maxTemp
    ensures 0.0 <= 100.0 / (maxTemp - fanless) * (temp - fanless) <= 100.0
  {
    var k := 100.0 / (maxTemp - fanless);
    assert k * (maxTemp - fanless) == 100.0;
    assert k > 0.0;
    MulLe(k, 0.0, temp - fanless);
    MulLe(k, temp - fanless, maxTemp - fanless);
  }

  /** With ordered thresholds the policy is always defined, off below the
      fan-less threshold, full above the maximum, and between them the point
      on the line through (fanless, 0) and (maxTemp, 100). */
  lemma TargetSpeedOrdered(temp: real, fanless: real, maxTemp: real)
    requires fanless < maxTemp
    ensures TargetSpeed(temp, fanless, maxTemp).Some?
    ensures temp < fanless ==> TargetSpeed(temp, fanless, maxTemp).value == 0.0
    ensures temp > maxTemp ==> TargetSpeed(temp, fanless, maxTemp).value == 100.0
    ensures fanless <= temp <= maxTemp ==>
              TargetSpeed(temp, fanless, maxTemp).value * (maxTemp - fanless) == 100.0 * (temp - fanless)
  {
    if fanless <= temp <= maxTemp {
      var k := 100.0 / (maxTemp - fanless);
      assert k * (maxTemp - fanless) == 100.0;
      assert k * (temp - fanless) * (maxTemp - fanless) == k * (maxTemp - fanless) * (temp - fanless);
    }
  }

  /** The boundaries meet the neighbouring branches: 0 at the fan-less
      threshold and 100 at the maximum. */
  lemma TargetSpeedContinuous(fanless: real, maxTemp: real)
    requires fanless < maxTemp
    ensures TargetSpeed(fanless, fanless, maxTemp) == Some(0.0)
    ensures TargetSpeed(maxTemp, fanless, maxTemp) == Some(100.0)
  {
    var k := 100.0 / (maxTemp - fanless);
    assert k * (maxTemp - fanless) == 100.0;
  }

  /** A hotter CPU never asks for a slower fan. */
  lemma TargetSpeedMonotone(t1: real, t2: real, fanless: real, maxTemp: real)
    requires fanless < maxTemp && t1 <= t2
    ensures TargetSpeed(t1, fanless, maxTemp).value <= TargetSpeed(t2, fanless, maxTemp).value
  {
    TargetSpeedOrdered(t1, fanless, maxTemp);
    TargetSpeedOrdered(t2, fanless, maxTemp);
    if fanless <= t1 && t2 <= maxTemp {
      var k := 100.0 / (maxTemp - fanless);
      assert k > 0.0;
      MulLe(k, t1 - fanless, t2 - fanless);
    }
  }

  /** Between ordered thresholds every percentage is the target at some
      temperature: the one that fraction of the way from `fanless` to `maxTemp`. */
  lemma TargetSpeedOnto(v: real, fanless: real, maxTemp: real)
    requires fanless < maxTemp && 0.0 <= v <= 100.0
    ensures exists t :: fanless <= t <= maxTemp && TargetSpeed(t, fanless, maxTemp) == Some(v)
  {
    var d := maxTemp - fanless;
    var step := v / 100.0 * d;
    var t := fanless + step;
    StepBounds(v, d);
    assert fanless <= t <= maxTemp;
    TargetSpeedOrdered(t, fanless, maxTemp);
    var r := TargetSpeed(t, fanless, maxTemp).value;
    assert r * d == 100.0 * step == v * d;
    assert (r - v) * d == 0.0;
    assert r == v;
  }

  /** With the thresholds the wrong way round the line is never reached and
      the fan is either off or at full speed. */
  lemma TargetSpeedInverted(temp: real, fanless: real, maxTemp: real)
    requires maxTemp < fanless
    ensures TargetSpeed(temp, fanless, maxTemp) == if temp < fanless then Some(0.0) else Some(100.0)
  {
  }

  /** With the default thresholds 60 and 80: 50 gives 0, 60 gives 0, 70 gives
      50, 80 gives 100 and 90 gives 100. */
  lemma TargetSpeedDefaults()
    ensures TargetSpeed(50.0, 60.0, 80.0) == Some(0.0)
    ensures TargetSpeed(60.0, 60.0, 80.0) == Some(0.0)
    ensures TargetSpeed(70.0, 60.0, 80.0) == Some(50.0)
    ensures TargetSpeed(80.0, 60.0, 80.0) == Some(100.0)
    ensures TargetSpeed(90.0, 60.0, 80.0) == Some(100.0)
  {
  }
}
