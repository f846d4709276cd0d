# Mark II rev 6 fan control, modelled in Dafny

A model of the fan controller of the OpenVoiceOS PHAL plugin for the Mycroft
Mark II rev 6 board (`ovos_PHAL_plugin_mk2_v6_fan_control/__init__.py`). The
plugin reads the CPU temperature every 30 seconds. It turns the reading into a
target fan speed in percent: off below a fan-less threshold, full speed above a
thermal-throttle threshold, and a straight line in between. It then converts
that percentage to a hardware duty cycle in 0..255 and writes it to the fan
controller.

Modules:

- `Optional` (`fan_option.dfy`) is an `Option` type. It is used for absent
  configuration keys and for a target that cannot be computed.
- `FanUnits` (`fan_units.dfy`) holds the pure conversions of `R6FanControl`:
  `speed_to_hdw_val`, `hdw_val_to_speed`, the clamp in `hdw_set_speed` and
  `celcius_to_fahrenheit`. Python's `int()` is truncation toward zero
  (`Trunc`). Python 3's `round()` is rounding half to even (`RoundHalfEven`).
- `FanActuator` (`fan_actuator.dfy`) holds the class `R6FanControl`. Its one
  real field `fanSpeed` is the last commanded duty cycle. The ghost sequence
  `Written` records every duty cycle sent to the hardware.
- `FanPolicy` (`fan_policy.dfy`) holds the per-tick policy of `run` as the pure
  function `TargetSpeed`. A division by zero, which happens when the temperature
  equals both thresholds, is modelled as `None`.
- `FanControls` (`fan_controls.dfy`) holds the class `Mk2Rev6FanControls`. It
  covers the constructor, `set_min_fan_temp`, one pass of the loop body
  (`Tick`, with the sampled temperature as a parameter) and `shutdown`. It also
  holds a few scenario methods built on these.

Speeds and temperatures are `real`, which is exact. Duty cycles are `int`.

`set_min_fan_temp` returns nothing in Python. It logs one of three messages:
accepted, above 80, or below 0. The model returns that branch as a
`MinFanTempOutcome` value.

## Model

| member | source | states |
|---|---|---|
| FanUnits.Trunc | ovos_PHAL_plugin_mk2_v6_fan_control/__init__.py:154 | `int()` truncates toward zero: the result is the integer at most one step from x, on the side of zero |
| FanUnits.RoundHalfEven | ovos_PHAL_plugin_mk2_v6_fan_control/__init__.py:166 | `round(x, 0)` gives an integer within 1/2 of x; on an exact tie it gives the even one |
| FanUnits.SpeedToHdwVal | ovos_PHAL_plugin_mk2_v6_fan_control/__init__.py:144-154 | the result is a duty cycle in [0,255]; speeds >= 100 give 255 and speeds <= 0 give 0; on [0,100] it is the largest integer not above speed*255/100 |
| FanUnits.HdwValToSpeed | ovos_PHAL_plugin_mk2_v6_fan_control/__init__.py:156-166 | the result is a percentage in [0,100]; values >= 255 give 100 and values <= 0 give 0; on [0,255] it is within 1/2 of h*100/255 |
| FanUnits.ClampHdw | ovos_PHAL_plugin_mk2_v6_fan_control/__init__.py:168-173 | the value written is in [0,255]; an in-range value is left as is; values outside go to the nearer end |
| FanUnits.CelsiusToFahrenheit | ovos_PHAL_plugin_mk2_v6_fan_control/__init__.py:140-142 | the result satisfies 5(F-32) = 9C |
| FanUnits.SpeedToHdwValSaturates | ovos_PHAL_plugin_mk2_v6_fan_control/__init__.py:149-154 | every speed >= 100 converts like 100 (to 255); every speed <= 0 converts like 0 (to 0) |
| FanUnits.SpeedToHdwValMonotone | ovos_PHAL_plugin_mk2_v6_fan_control/__init__.py:144-154 | `speed_to_hdw_val` is non-decreasing in the speed |
| FanUnits.HdwValToSpeedSaturates | ovos_PHAL_plugin_mk2_v6_fan_control/__init__.py:160-166 | every duty cycle >= 255 reads as 100 %; every one <= 0 reads as 0 % |
| FanUnits.HdwValToSpeedNoTie | ovos_PHAL_plugin_mk2_v6_fan_control/__init__.py:166 | for an in-range duty cycle, round-half-even equals floor(x + 1/2), because 20h/51 is never a half-integer |
| FanUnits.RoundTripPercent | ovos_PHAL_plugin_mk2_v6_fan_control/__init__.py:144-166 | for p in [0,100], hdw_val_to_speed(speed_to_hdw_val(p)) lies in (p-1, p+1/2] |
| FanUnits.RoundTripWholePercent | ovos_PHAL_plugin_mk2_v6_fan_control/__init__.py:144-166 | a whole percentage in [0,100] survives the round trip exactly |
| FanUnits.RoundTripHdwVal | ovos_PHAL_plugin_mk2_v6_fan_control/__init__.py:144-166 | a duty cycle h in [0,255] read back as a percentage and converted again lies in [h-2, h+1] |
| FanUnits.HdwValToSpeedMonotone | ovos_PHAL_plugin_mk2_v6_fan_control/__init__.py:156-166 | `hdw_val_to_speed` is non-decreasing in the duty cycle |
| FanUnits.HdwValToSpeedOnto | ovos_PHAL_plugin_mk2_v6_fan_control/__init__.py:144-166 | every whole percentage in [0,100] is reported for some duty cycle in [0,255], namely the one speed_to_hdw_val picks for it |
| FanUnits.CelsiusToFahrenheitFacts | ovos_PHAL_plugin_mk2_v6_fan_control/__init__.py:140-142 | the conversion is strictly increasing; 0 C is 32 F, 100 C is 212 F, -40 C is -40 F |
| FanActuator.R6FanControl.constructor | ovos_PHAL_plugin_mk2_v6_fan_control/__init__.py:119-121 | a new actuator holds duty cycle 0 and has written nothing |
| FanActuator.R6FanControl.HdwSetSpeed | ovos_PHAL_plugin_mk2_v6_fan_control/__init__.py:168-179 | exactly one write, of the argument clamped to [0,255]; the stored duty cycle is untouched |
| FanActuator.R6FanControl.SetFanSpeed | ovos_PHAL_plugin_mk2_v6_fan_control/__init__.py:181-183 | the stored duty cycle becomes speed_to_hdw_val(speed) and exactly that value is written, so it is again the last write; every written value stays in [0,255]; a whole percentage in [0,100] then reads back unchanged |
| FanActuator.R6FanControl.GetFanSpeed | ovos_PHAL_plugin_mk2_v6_fan_control/__init__.py:185-186 | changes nothing; returns hdw_val_to_speed of the stored duty cycle, a value in [0,100]; when the stored value is the last one written, it is that write read back |
| FanActuator.DirectWriteScenario | ovos_PHAL_plugin_mk2_v6_fan_control/__init__.py:168-186 | a direct hdw_set_speed(100) followed by set_fan_speed(50) writes both values and the fan then reports 50 |
| FanActuator.R6FanControl.Shutdown | ovos_PHAL_plugin_mk2_v6_fan_control/__init__.py:188-189 | whatever the prior state, the stored duty cycle becomes 0, 0 is written and get_fan_speed reads 0 |
| FanPolicy.TargetSpeed | ovos_PHAL_plugin_mk2_v6_fan_control/__init__.py:80-93 | the target is missing (division by zero) exactly when temperature, fan-less and full-speed thresholds are all equal; any target produced is in [0,100] |
| FanPolicy.LineBounds | ovos_PHAL_plugin_mk2_v6_fan_control/__init__.py:88-93 | between ordered thresholds the linear curve stays within [0,100] |
| FanPolicy.TargetSpeedOrdered | ovos_PHAL_plugin_mk2_v6_fan_control/__init__.py:80-93 | with fanless < max, a target always exists; it is 0 below fanless, 100 above max, and between them it is on the line through (fanless, 0) and (max, 100) |
| FanPolicy.TargetSpeedContinuous | ovos_PHAL_plugin_mk2_v6_fan_control/__init__.py:88-93 | with fanless < max, T = fanless gives 0 and T = max gives 100, matching the branches on either side |
| FanPolicy.TargetSpeedMonotone | ovos_PHAL_plugin_mk2_v6_fan_control/__init__.py:80-93 | with fanless < max, a higher temperature never gives a lower target |
| FanPolicy.TargetSpeedOnto | ovos_PHAL_plugin_mk2_v6_fan_control/__init__.py:88-93 | with fanless < max, every target in [0,100] is produced by some temperature between the thresholds |
| FanPolicy.TargetSpeedInverted | ovos_PHAL_plugin_mk2_v6_fan_control/__init__.py:81-87 | with max < fanless the line is never reached: the target is 0 below fanless and 100 otherwise |
| FanPolicy.TargetSpeedDefaults | ovos_PHAL_plugin_mk2_v6_fan_control/__init__.py:80-93 | with thresholds 60/80: 50 gives 0, 60 gives 0, 70 gives 50, 80 gives 100, 90 gives 100 |
| FanControls.Mk2Rev6FanControls.constructor | ovos_PHAL_plugin_mk2_v6_fan_control/__init__.py:40-50 | the fan starts at 0 with nothing written; the thresholds come from the config or default to 60 and 80; min_fan_temp replaces the fan-less threshold only when present, non-zero and in [0,80] |
| FanControls.Mk2Rev6FanControls.SetMinFanTemp | ovos_PHAL_plugin_mk2_v6_fan_control/__init__.py:57-72 | values above 80 or below 0 are rejected and leave the setting unchanged; values in [0,80], ends included, become the fan-less threshold exactly; the full-speed threshold is never touched |
| FanControls.Mk2Rev6FanControls.SetMinFanTempBelowMax | ovos_PHAL_plugin_mk2_v6_fan_control/__init__.py:57-72 | corrected setter: above 80 is rejected as before; a value in range but not below the full-speed threshold is rejected with its own outcome; below 0 is rejected otherwise; the rest is stored; ordered thresholds stay ordered |
| FanControls.Mk2Rev6FanControls.Tick | ovos_PHAL_plugin_mk2_v6_fan_control/__init__.py:80-97 | the target is TargetSpeed of the sample and the current thresholds; when present the fan stores and writes speed_to_hdw_val(target) (0 when too cold, 255 when too hot); when missing nothing is written |
| FanControls.Mk2Rev6FanControls.Shutdown | ovos_PHAL_plugin_mk2_v6_fan_control/__init__.py:100-102 | the stop signal is raised, the fan is commanded to duty cycle 0 and the thresholds are unchanged |
| FanControls.LowerThresholdScenario | ovos_PHAL_plugin_mk2_v6_fan_control/__init__.py:57-93 | with defaults, 50 C gives target 0; after set_min_fan_temp(45) the same sample gives a positive target |
| FanControls.RejectedThresholdScenario | ovos_PHAL_plugin_mk2_v6_fan_control/__init__.py:49-70 | set_min_fan_temp(85) and set_min_fan_temp(-1) leave 60 in place; a configured min_fan_temp of 0 is skipped |
| FanControls.MinFanTempAtMaxScenario | ovos_PHAL_plugin_mk2_v6_fan_control/__init__.py:57-93 | set_min_fan_temp(80) is accepted with the default maximum of 80, and the next tick at 80 C has no target (division by zero) |
| FanControls.MinFanTempAtMaxCorrectedScenario | ovos_PHAL_plugin_mk2_v6_fan_control/__init__.py:57-93 | with the corrected setter the same request is refused as not below the maximum, and a tick at any temperature gives a target in [0,100] |
| FanControls.CorrectedSetterKeepsTickDefined | ovos_PHAL_plugin_mk2_v6_fan_control/__init__.py:57-93 | from ordered thresholds, any call of the corrected setter keeps them ordered, and the next tick always commands the fan |

## Findings

| source | as written | input that shows it | evidently intended | confidence | as-written member | corrected member |
|---|---|---|---|---|---|---|
| ovos_PHAL_plugin_mk2_v6_fan_control/__init__.py:63-72 | `set_min_fan_temp` accepts any value up to 80 inclusive. It never compares the value with `_max_fan_temp`. | Default config, `set_min_fan_temp(80.0)`, then a sample of 80.0 C. Line 90 divides by `80.0 - 80.0`. | The fan-less threshold stays strictly below the full-speed threshold. The error message says "min temp must be lower". | high (not executed) | FanControls.MinFanTempAtMaxScenario | FanControls.CorrectedSetterKeepsTickDefined |

`FanControls.Mk2Rev6FanControls.SetMinFanTemp` keeps the behaviour as written.
The corrected setter is `SetMinFanTempBelowMax`, and the two corrected members
above are proved about it.

## Left out

- The `run` loop (lines 74-98) is not modelled: its 30-second interruptible wait, its threading and its exit signalling. Only one pass of its body is modelled, as `Tick`. As written, line 75 rebinds `exit_flag` to `False`, so the `.wait(30)` on line 77 would fail on a bool. A `shutdown` after `run` has started would also fail at line 101.
- The temperature is a parameter of `Tick`. `get_cpu_temp` (lines 52-55) is not modelled: it reads sysfs through a subprocess and divides by 1000. So is its second call per tick, whose value is only logged (line 78).
- `execute_cmd` (lines 124-138) and the `i2cset` command built in `hdw_set_speed` are foreign calls. The write is modelled only as an entry appended to the ghost sequence `Written`.
- The GPIO call in `Mk2Rev6FanControls.shutdown` (lines 103-108) is not modelled. It needs `RPi.GPIO`, refers to `fan_pin` (which `R6FanControl` does not define) and swallows every exception.
- `Mk2Rev6FanValidator.validate` (lines 13-34) is not modelled. It is platform detection through file reads and a hardware probe.
- `setup.py` is packaging metadata and is not modelled.
- Logging is left out, apart from the branch that `set_min_fan_temp` takes.
- The model does not capture IEEE-754 doubles. In Python, `100 * (255/100)` is 254.99999999999997, so `speed_to_hdw_val(100)` returns 254. The exact-real model returns 255. A NaN threshold or temperature would fail every comparison, so `set_min_fan_temp` would accept it. Reals have no NaN.
- Config values are taken to be numbers. Python's `float()` on a non-numeric `min_fan_temp`, and truthiness of non-numeric values, are not modelled.
- Concurrent calls of `set_min_fan_temp` during `run` are not modelled. The model is sequential.
