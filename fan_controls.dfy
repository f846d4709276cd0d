/** The controller `Mk2Rev6FanControls`: it holds the two temperature
    thresholds, lets the fan-less threshold be reconfigured, turns one
    temperature sample into one fan command, and shuts the fan down. */
module FanControls {
  import opened Optional
  import opened FanUnits
  import opened FanPolicy
  import opened FanActuator

  // Defaults used when the configuration leaves a threshold out.
  const DefaultMaxFanlessTemp: real := 60.0
  const DefaultMaxFanTemp: real := 80.0
  // The range `set_min_fan_temp` accepts, both ends included.
  const MinFanTempLow: real := 0.0
  const MinFanTempHigh: real := 80.0

  /** The options the host hands to the plugin: each key may be absent. */
  datatype Config = Config(
    maxFanlessTemp: Option<real>,
    maxFanTemp: Option<real>,
    minFanTemp: Option<real>)

  /** How `set_min_fan_temp` answered: which branch it took (each rejection is
      logged with its own message). `RejectedNotBelowMax` is only given by the
      corrected setter, for a value not below the full-speed threshold. */
  datatype MinFanTempOutcome = Accepted | RejectedAboveMax | RejectedBelowZero | RejectedNotBelowMax

  /** `if self.config.get("min_fan_temp")`: the override is applied only when
      it is present and truthy, so an explicit 0 is skipped. */
  predicate AppliesMinFanTemp(config: Config)
  {
    config.minFanTemp.Some? && config.minFanTemp.value != 0.0
  }

  class Mk2Rev6FanControls {
    const fan: R6FanControl
    /** Highest temperature at which the fan stays off (`_max_fanless_temp`). */
    var maxFanlessTemp: real
    /** Temperature from which the fan runs at full speed (`_max_fan_temp`). */
    var maxFanTemp: real
    /** The stop signal (`exit_flag`). */
    var exitRequested: bool

    ghost predicate Valid()
      reads this, fan
    {
      fan.Valid()
    }

    /** `__init__`: a fresh fan at speed 0, the thresholds from the
        configuration or their defaults, then the optional override through
        the setter. */
    constructor (config: Config)
      ensures Valid() && fresh(fan)
      ensures fan.fanSpeed == 0 && fan.Written == []
      ensures !exitRequested
      ensures maxFanTemp == config.maxFanTemp.GetOr(DefaultMaxFanTemp)
      ensures AppliesMinFanTemp(config) && MinFanTempLow <= config.minFanTemp.value <= MinFanTempHigh ==>
                maxFanlessTemp == config.minFanTemp.value
      ensures !(AppliesMinFanTemp(config) && MinFanTempLow <= config.minFanTemp.value <= MinFanTempHigh) ==>
                maxFanlessTemp == config.maxFanlessTemp.GetOr(DefaultMaxFanlessTemp)
    {
      fan := new R6FanControl();
      exitRequested := false;
      maxFanlessTemp := config.maxFanlessTemp.GetOr(DefaultMaxFanlessTemp);
      maxFanTemp := config.maxFanTemp.GetOr(DefaultMaxFanTemp);
      new;
      if AppliesMinFanTemp(config) {
        var _ := SetMinFanTemp(config.minFanTemp.value);
      }
    }

    /** `set_min_fan_temp`: accept a fan-less threshold in [0, 80], otherwise
        leave the setting unchanged. The full-speed threshold is not consulted. */
    method SetMinFanTemp(newTemp: real) returns (outcome: MinFanTempOutcome)
      modifies this`maxFanlessTemp
      ensures outcome == Accepted <==> MinFanTempLow <= newTemp <= MinFanTempHigh
      ensures outcome == RejectedAboveMax <==> newTemp > MinFanTempHigh
      ensures outcome == RejectedBelowZero <==> newTemp < MinFanTempLow
      ensures maxFanlessTemp == if outcome == Accepted then newTemp else old(maxFanlessTemp)
    {
      if newTemp > MinFanTempHigh {
        return RejectedAboveMax;
      }
      if newTemp < MinFanTempLow {
        return RejectedBelowZero;
      }
      maxFanlessTemp := newTemp;
      outcome := Accepted;
    }

    /** The setter as evidently intended: also reject a threshold that is not
        below the full-speed threshold, so the two stay ordered. */
    method SetMinFanTempBelowMax(newTemp: real) returns (outcome: MinFanTempOutcome)
      modifies this`maxFanlessTemp
      ensures outcome == Accepted <==> MinFanTempLow <= newTemp <= MinFanTempHigh && newTemp < maxFanTemp
      ensures outcome == RejectedAboveMax <==> newTemp > MinFanTempHigh
      ensures outcome == RejectedBelowZero <==> MinFanTempLow > newTemp && newTemp < maxFanTemp
      ensures outcome == RejectedNotBelowMax <==> newTemp <= MinFanTempHigh && newTemp >= maxFanTemp
      ensures maxFanlessTemp == if outcome == Accepted then newTemp else old(maxFanlessTemp)
      ensures old(maxFanlessTemp) < maxFanTemp ==> maxFanlessTemp < maxFanTemp
    {
      if newTemp > MinFanTempHigh {
        return RejectedAboveMax;
      }
      if newTemp >= maxFanTemp {
        return RejectedNotBelowMax;
      }
      if newTemp < MinFanTempLow {
        return RejectedBelowZero;
      }
      maxFanlessTemp := newTemp;
      outcome := Accepted;
    }

    /** One pass of the control loop body for the sampled temperature
        `currentTemp`: compute the target and command the fan with it. When the
        target cannot be computed (division by zero) nothing is written. */
    method Tick(currentTemp: real) returns (target: Option<real>)
      requires Valid()
      modifies fan
      ensures Valid()
      ensures target == TargetSpeed(currentTemp, maxFanlessTemp, maxFanTemp)
      ensures target.Some? ==> fan.fanSpeed == SpeedToHdwVal(target.value)
      ensures target.Some? ==> fan.Written == old(fan.Written) + [fan.fanSpeed]
      ensures target.None? ==> fan.fanSpeed == old(fan.fanSpeed) && fan.Written == old(fan.Written)
      // too cold: fan off; too hot: full duty cycle
      ensures currentTemp < maxFanlessTemp ==> fan.fanSpeed == HdwMin
      ensures maxFanlessTemp <= currentTemp && maxFanTemp < currentTemp ==> fan.fanSpeed == HdwMax
    {
      target := TargetSpeed(currentTemp, maxFanlessTemp, maxFanTemp);
      if target.Some? {
        fan.SetFanSpeed(target.value);
      }
    }

    /** `shutdown`: raise the stop signal and command speed 0. */
    method Shutdown()
      requires Valid()
      modifies this, fan
      ensures Valid() && exitRequested
      ensures maxFanlessTemp == old(maxFanlessTemp) && maxFanTemp == old(maxFanTemp)
      ensures fan.fanSpeed == HdwMin && HdwValToSpeed(fan.fanSpeed) == SfwMin
      ensures fan.Written == old(fan.Written) + [HdwMin]
    {
      exitRequested := true;
      fan.Shutdown();
    }
  }

  // -----------------------------------------------------------------------
  // Scenarios

  /** With default thresholds, lowering the fan-less threshold to 45 makes a
      50 degree sample run the fan where it was off before. */
  method LowerThresholdScenario() returns (before: Option<real>, after: Option<real>)
    ensures before == Some(0.0)
    ensures after.Some? && after.value > 0.0
  {
    var controls := new Mk2Rev6FanControls(Config(None, None, None));
    before := controls.Tick(50.0);
    var outcome := controls.SetMinFanTemp(45.0);
    assert outcome == Accepted;
    after := controls.Tick(50.0);
    TargetSpeedOrdered(50.0, 45.0, 80.0);
  }

  /** Out-of-range thresholds are rejected and leave the setting alone, and a
      configured `min_fan_temp` of 0 is skipped by the constructor. */
  method RejectedThresholdScenario() returns (above: real, below: real, zero: real)
    ensures above == DefaultMaxFanlessTemp && below == DefaultMaxFanlessTemp
    ensures zero == DefaultMaxFanlessTemp
  {
    var controls := new Mk2Rev6FanControls(Config(None, None, None));
    var _ := controls.SetMinFanTemp(85.0);
    above := controls.maxFanlessTemp;
    var _ := controls.SetMinFanTemp(-1.0);
    below := controls.maxFanlessTemp;
    var zeroed := new Mk2Rev6FanControls(Config(None, None, Some(0.0)));
    zero := zeroed.maxFanlessTemp;
  }

  /** `set_min_fan_temp(80.0)` is accepted with the default full-speed
      threshold of 80, and the next sample at 80 degrees then divides by zero:
      no fan command can be computed. */
  method MinFanTempAtMaxScenario() returns (outcome: MinFanTempOutcome, target: Option<real>)
    ensures outcome == Accepted
    ensures target.None?
  {
    var controls := new Mk2Rev6FanControls(Config(None, None, None));
    outcome := controls.SetMinFanTemp(80.0);
    target := controls.Tick(80.0);
  }

  /** With the intended setter the same request is refused and every later
      sample yields a fan command. */
  method MinFanTempAtMaxCorrectedScenario(temp: real) returns (outcome: MinFanTempOutcome, target: Option<real>)
    ensures outcome == RejectedNotBelowMax
    ensures target.Some? && 0.0 <= target.value <= 100.0
  {
    var controls := new Mk2Rev6FanControls(Config(None, None, None));
    outcome := controls.SetMinFanTempBelowMax(80.0);
    TargetSpeedOrdered(temp, controls.maxFanlessTemp, controls.maxFanTemp);
    target := controls.Tick(temp);
  }

  /** The intended setter keeps the thresholds ordered, so whatever it is
      asked and whatever the temperature, the next tick commands the fan. */
  method CorrectedSetterKeepsTickDefined(controls: Mk2Rev6FanControls, newTemp: real, temp: real)
    returns (target: Option<real>)
    requires controls.Valid() && controls.maxFanlessTemp < controls.maxFanTemp
    modifies controls, controls.fan
    ensures controls.Valid() && controls.maxFanlessTemp < controls.maxFanTemp
    ensures target.Some? && 0.0 <= target.value <= 100.0
  {
    var _ := controls.SetMinFanTempBelowMax(newTemp);
    TargetSpeedOrdered(temp, controls.maxFanlessTemp, controls.maxFanTemp);
    target := controls.Tick(temp);
  }
}
