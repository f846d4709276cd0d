/** The fan actuator `R6FanControl`: it remembers the last duty cycle it
    commanded and writes duty cycles to the fan controller on the I2C bus.
    The write itself is foreign; the model records each value it would send
    in the ghost sequence `Written`. */
module FanActuator {
  import opened FanUnits

  class R6FanControl {
    /** The last commanded duty cycle (`self.fan_speed`). */
    var fanSpeed: int
    /** Every duty cycle sent to the hardware so far, oldest first. */
    ghost var Written: seq<int>

    /** The stored duty cycle and everything written are in hardware range. */
    ghost predicate Valid()
      reads this
    {
      && HdwMin <= fanSpeed <= HdwMax
      && (forall i :: 0 <= i < |Written| ==> HdwMin <= Written[i] <= HdwMax)
    }

    /** The stored duty cycle is the one most recently written. A direct
        `HdwSetSpeed` of another value breaks this until the next `SetFanSpeed`. */
    ghost predicate InSync()
      reads this
    {
      |Written| > 0 ==> Written[|Written| - 1] == fanSpeed
    }

    /** The fan starts at duty cycle 0 and nothing is written. */
    constructor ()
      ensures Valid() && InSync()
      ensures fanSpeed == 0 && Written == []
    {
      fanSpeed := 0;
      Written := [];
    }

    /** `hdw_set_speed`: clamp the duty cycle and send it to the hardware. */
    method HdwSetSpeed(hdwSpeed: int)
      requires Valid()
      modifies this`Written
      ensures Valid()
      ensures Written == old(Written) + [ClampHdw(hdwSpeed)]
    {
      var speed := hdwSpeed;
      if speed > HdwMax {
        speed := HdwMax;
      }
      if speed < HdwMin {
        speed := HdwMin;
      }
      Written := Written + [speed];
    }

    /** `set_fan_speed`: store the converted duty cycle and write exactly it. */
    method SetFanSpeed(speed: real)
      requires Valid()
      modifies this
      ensures Valid() && InSync()
      ensures fanSpeed == SpeedToHdwVal(speed)
      ensures Written == old(Written) + [fanSpeed]
      // whole percentages in range read back unchanged
      ensures speed.Floor as real == speed && SfwMin as real <= speed <= SfwMax as real ==>
                HdwValToSpeed(fanSpeed) as real == speed
    {
      fanSpeed := SpeedToHdwVal(speed);
      HdwSetSpeed(fanSpeed);
      if speed.Floor as real == speed && SfwMin as real <= speed <= SfwMax as real {
        RoundTripWholePercent(speed.Floor);
      }
    }

    /** `get_fan_speed`: the stored duty cycle as a percentage; changes nothing. */
    method GetFanSpeed() returns (p: int)
      requires Valid()
      ensures SfwMin <= p <= SfwMax
      ensures p == HdwValToSpeed(fanSpeed)
      // when in sync, what is reported is the last value sent to the hardware, read back
      ensures InSync() && |Written| > 0 ==> p == HdwValToSpeed(Written[|Written| - 1])
    {
      p := HdwValToSpeed(fanSpeed);
    }

    /** `shutdown`: command speed 0. */
    method Shutdown()
      requires Valid()
      modifies this
      ensures Valid() && InSync()
      ensures fanSpeed == HdwMin && HdwValToSpeed(fanSpeed) == SfwMin
      ensures Written == old(Written) + [HdwMin]
    {
      SetFanSpeed(0.0);
    }
  }

  /** `hdw_set_speed` is public, so a direct write may come before
      `set_fan_speed`: `hdw_set_speed(100)` then `set_fan_speed(50)` leaves the
      fan reporting 50 % and both values written. */
  method DirectWriteScenario() returns (p: int, ghost written: seq<int>)
    ensures p == 50
    ensures written == [100, SpeedToHdwVal(50.0)]
  {
    var fan := new R6FanControl();
    fan.HdwSetSpeed(100);
    fan.SetFanSpeed(50.0);
    p := fan.GetFanSpeed();
    written := fan.Written;
  }
}
