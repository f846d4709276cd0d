/** Conversions between the software fan-speed percentage (0..100) and the
    hardware duty cycle (0..255) of the Mark II rev 6 fan, and the Celsius to
    Fahrenheit helper of R6FanControl. Everything here is pure. */
module FanUnits {

  // Ranges of the two domains (class constants of R6FanControl).
  const HdwMin: int := 0
  const HdwMax: int := 255
  const SfwMin: int := 0
  const SfwMax: int := 100

  /** Python's `int(x)` on a number: truncation toward zero. */
  function Trunc(x: real): (n: int)
    ensures 0.0 <= x ==> n as real <= x < n as real + 1.0
    ensures x < 0.0 ==> n as real - 1.0 < x <= n as real
  {
    if x >= 0.0 then x.Floor else -((-x).Floor)
  }

  /** Python 3's `round(x, 0)`: the nearest integer, ties going to the even one. */
  function RoundHalfEven(x: real): (n: int)
    ensures x - 0.5 <= n as real <= x + 0.5
    ensures (n as real == x - 0.5 || n as real == x + 0.5) ==> n % 2 == 0
  {
    var f := x.Floor;
    var d := x - f as real;
    if d < 0.5 then f
    else if d > 0.5 then f + 1
    else if f % 2 == 0 then f
    else f + 1
  }

  /** `speed_to_hdw_val`: clamp a software speed to [SfwMin, SfwMax], scale it
      linearly onto [HdwMin, HdwMax] and truncate. */
  function SpeedToHdwVal(speed: real): (h: int)
    ensures HdwMin <= h <= HdwMax
    ensures speed >= SfwMax as real ==> h == HdwMax
    ensures speed <= SfwMin as real ==> h == HdwMin
    // inside the range: the largest duty cycle not above the proportional value
    ensures SfwMin as real <= speed <= SfwMax as real ==>
              h as real <= speed * 2.55 < h as real + 1.0
  {
    var outSteps := HdwMax - HdwMin;
    var inSteps := SfwMax - SfwMin;
    var ratio := outSteps as real / inSteps as real;
    var upper := if speed > SfwMax as real then SfwMax as real else speed;
    var clamped := if upper < SfwMin as real then SfwMin as real else upper;
    Trunc(clamped * ratio + HdwMin as real)
  }

  /** `hdw_val_to_speed`: clamp a duty cycle to [HdwMin, HdwMax], scale it
      linearly back onto [SfwMin, SfwMax] and round. */
  function HdwValToSpeed(hdwVal: int): (p: int)
    ensures SfwMin <= p <= SfwMax
    ensures hdwVal >= HdwMax ==> p == SfwMax
    ensures hdwVal <= HdwMin ==> p == SfwMin
    // inside the range: the nearest integer to the proportional value
    ensures HdwMin <= hdwVal <= HdwMax ==>
              hdwVal as real / 2.55 - 0.5 <= p as real <= hdwVal as real / 2.55 + 0.5
  {
    var outSteps := SfwMax - SfwMin;
    var inSteps := HdwMax - HdwMin;
    var ratio := outSteps as real / inSteps as real;
    var upper := if hdwVal > HdwMax then HdwMax else hdwVal;
    var clamped := if upper < HdwMin then HdwMin else upper;
    RoundHalfEven((clamped - HdwMin) as real * ratio + SfwMin as real)
  }

  /** `hdw_set_speed` forces its argument into the hardware range before the write. */
  function ClampHdw(hdwSpeed: int): (h: int)
    ensures HdwMin <= h <= HdwMax
    ensures HdwMin <= hdwSpeed <= HdwMax ==> h == hdwSpeed
    ensures hdwSpeed > HdwMax ==> h == HdwMax
    ensures hdwSpeed < HdwMin ==> h == HdwMin
  {
    var upper := if hdwSpeed > HdwMax then HdwMax else hdwSpeed;
    if upper < HdwMin then HdwMin else upper
  }

  /** `celcius_to_fahrenheit`. */
  function CelsiusToFahrenheit(temp: real): (f: real)
    ensures 5.0 * (f - 32.0) == 9.0 * temp
  {
    (temp * 1.8) + 32.0
  }

  // ---------------------------------------------------------------------
  // Properties of the conversions

  /** Every speed at or above the top of the range gives what 100 gives, and
      every speed at or below the bottom gives what 0 gives. */
  lemma SpeedToHdwValSaturates(speed: real)
    ensures speed >= SfwMax as real ==> SpeedToHdwVal(speed) == SpeedToHdwVal(SfwMax as real) == HdwMax
    ensures speed <= SfwMin as real ==> SpeedToHdwVal(speed) == SpeedToHdwVal(SfwMin as real) == HdwMin
  {
  }

  /** A faster requested speed never gives a smaller duty cycle. */
  lemma SpeedToHdwValMonotone(s1: real, s2: real)
    requires s1 <= s2
    ensures SpeedToHdwVal(s1) <= SpeedToHdwVal(s2)
  {
    if SfwMin as real <= s1 && s2 <= SfwMax as real {
      var h1, h2 := SpeedToHdwVal(s1), SpeedToHdwVal(s2);
      assert h1 as real <= s1 * 2.55 <= s2 * 2.55 < h2 as real + 1.0;
    }
  }

  /** Every duty cycle above the range reads back as 100 %, every one below as 0 %. */
  lemma HdwValToSpeedSaturates(hdwVal: int)
    ensures hdwVal >= HdwMax ==> HdwValToSpeed(hdwVal) == HdwValToSpeed(HdwMax) == SfwMax
    ensures hdwVal <= HdwMin ==> HdwValToSpeed(hdwVal) == HdwValToSpeed(HdwMin) == SfwMin
  {
  }

  /** A duty cycle in range never scales to a value exactly halfway between
      two integers (20h/51 = k + 1/2 would need 40h = 51(2k+1), even against odd),
      so rounding half to even agrees with rounding half up. */
  lemma {:induction false} HdwValToSpeedNoTie(hdwVal: int)
    requires HdwMin <= hdwVal <= HdwMax
    ensures HdwValToSpeed(hdwVal) == (hdwVal as real * 100.0 / 255.0 + 0.5).Floor
  {
    var x := hdwVal as real * 100.0 / 255.0;
    var p := HdwValToSpeed(hdwVal);
    assert x - 0.5 < p as real < x + 0.5;
  }

  /** Round trip from the software side: converting a percentage in range to a
      duty cycle and back loses less than one percent downwards and at most
      half a percent upwards. */
  lemma RoundTripPercent(p: real)
    requires SfwMin as real <= p <= SfwMax as real
    ensures p - 1.0 < HdwValToSpeed(SpeedToHdwVal(p)) as real <= p + 0.5
  {
    var h := SpeedToHdwVal(p);
    var q := HdwValToSpeed(h);
    assert h as real / 2.55 <= p;
    assert p - 1.0 / 2.55 < h as real / 2.55 by {
      assert p * 2.55 - 1.0 < h as real;
    }
  }

  /** Whole percentages survive the round trip exactly. */
  lemma RoundTripWholePercent(p: int)
    requires SfwMin <= p <= SfwMax
    ensures HdwValToSpeed(SpeedToHdwVal(p as real)) == p
  {
    RoundTripPercent(p as real);
  }

  /** Round trip from the hardware side: a duty cycle in range read back as a
      percentage and converted again lands at most two steps below and one
      step above where it started (101 percentages cannot name 256 duty cycles). */
  lemma RoundTripHdwVal(h: int)
    requires HdwMin <= h <= HdwMax
    ensures h - 2 <= SpeedToHdwVal(HdwValToSpeed(h) as real) <= h + 1
  {
    var p := HdwValToSpeed(h);
    var h' := SpeedToHdwVal(p as real);
    assert h as real - 1.275 <= p as real * 2.55 <= h as real + 1.275;
    assert h' as real <= p as real * 2.55 < h' as real + 1.0;
  }

  /** A larger duty cycle never reads back as a smaller percentage. */
  lemma HdwValToSpeedMonotone(h1: int, h2: int)
    requires h1 <= h2
    ensures HdwValToSpeed(h1) <= HdwValToSpeed(h2)
  {
    if HdwMin <= h1 && h2 <= HdwMax {
      HdwValToSpeedNoTie(h1);
      HdwValToSpeedNoTie(h2);
    }
  }

  /** Every whole percentage in range is what `hdw_val_to_speed` reports for
      some duty cycle in range: the one `speed_to_hdw_val` picks for it. */
  lemma HdwValToSpeedOnto(p: int)
    requires SfwMin <= p <= SfwMax
    ensures exists h :: HdwMin <= h <= HdwMax && HdwValToSpeed(h) == p
  {
    RoundTripWholePercent(p);
    var h := SpeedToHdwVal(p as real);
    assert HdwMin <= h <= HdwMax && HdwValToSpeed(h) == p;
  }

  /** Celsius to Fahrenheit is strictly increasing and fixes the usual points. */
  lemma CelsiusToFahrenheitFacts(t1: real, t2: real)
    requires t1 < t2
    ensures CelsiusToFahrenheit(t1) < CelsiusToFahrenheit(t2)
    ensures CelsiusToFahrenheit(0.0) == 32.0
    ensures CelsiusToFahrenheit(100.0) == 212.0
    ensures CelsiusToFahrenheit(-40.0) == -40.0
  {
  }
}
