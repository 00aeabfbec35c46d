/** The dual-PWM motor driver under the lock: one duty per channel, 13-bit resolution. */
module LockDrive {

  datatype Direction = Forward | Reverse

  datatype Channels = Channels(forward: nat, reverse: nat)

  const OFF := Channels(0, 0)

  const FULL_DUTY := 8191

  /** Speed is a percentage held in a byte; values over 100 are clamped before scaling. */
  function SpeedToDuty(speed: nat): nat {
    (if speed > 100 then 100 else speed) * FULL_DUTY / 100
  }

  /** Drives one channel and leaves the other one as it is. */
  function Driven(channels: Channels, direction: Direction, speed: nat): Channels {
    match direction
    case Forward => channels.(forward := SpeedToDuty(speed))
    case Reverse => channels.(reverse := SpeedToDuty(speed))
  }

  /** Scaling keeps the order of speeds, fits the resolution, and is off only at speed zero. */
  lemma DutyIsMonotone(slow: nat, fast: nat)
    requires slow <= fast
    ensures SpeedToDuty(slow) <= SpeedToDuty(fast) <= FULL_DUTY
    ensures SpeedToDuty(slow) == 0 <==> slow == 0
    ensures slow < fast <= 100 ==> SpeedToDuty(slow) < SpeedToDuty(fast)
  {
    var low := if slow > 100 then 100 else slow;
    var high := if fast > 100 then 100 else fast;
    assert low * FULL_DUTY <= high * FULL_DUTY <= 100 * FULL_DUTY;
  }

  /** The duty is the given percentage of 8191, rounded down, and 8191 for every speed over 100. */
  lemma DutyIsPercentage(speed: nat)
    ensures speed <= 100 ==> 100 * SpeedToDuty(speed) <= 8191 * speed < 100 * SpeedToDuty(speed) + 100
    ensures speed > 100 ==> SpeedToDuty(speed) == 8191
  {
    var product := (if speed > 100 then 100 else speed) * FULL_DUTY;
    assert product == 100 * (product / 100) + product % 100;
  }

  /** The driver object: `lock_drive` and `lock_drive_idle` write its two duties in place. */
  class MotorDriver {
    var forwardDuty: nat
    var reverseDuty: nat

    function State(): Channels
      reads this
    {
      Channels(forwardDuty, reverseDuty)
    }

    constructor ()
      ensures State() == OFF
    {
      forwardDuty, reverseDuty := 0, 0;
    }

    method Idle()
      modifies this
      ensures State() == OFF
    {
      forwardDuty := 0;
      reverseDuty := 0;
    }

    method Drive(direction: Direction, speed: nat)
      modifies this
      ensures State() == Driven(old(State()), direction, speed)
      ensures direction == Forward ==> reverseDuty == old(reverseDuty) && forwardDuty == SpeedToDuty(speed)
      ensures direction == Reverse ==> forwardDuty == old(forwardDuty) && reverseDuty == SpeedToDuty(speed)
    {
      match direction {
        case Forward => forwardDuty := SpeedToDuty(speed);
        case Reverse => reverseDuty := SpeedToDuty(speed);
      }
    }
  }
}
