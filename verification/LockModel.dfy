/** The linear-actuator lock as a step system: a command queue fed by callers and by a one-shot
    timer, and a worker that turns each command into one step of a speed ramp. */
module LockModel {
  import opened Options
  import opened LockDrive

  const QUEUE_SIZE := 10

  datatype Command = CloseMotor | OpenMotor | IdleMotor | LockStatus

  datatype Status = Closed | Opened | ClosedIdle | OpenedIdle | Closing | Opening | Idle

  /** `callback` is the command a fired timer has read but not queued yet; `holding` says that the
      worker sleeps in the hold that prevents spring-back. */
  datatype Lock = Lock(
    queue: seq<Command>,
    armed: bool,
    callback: Option<Command>,
    holding: bool,
    status: Status,
    command: Command,
    direction: Direction,
    speed: nat,
    increment: int,
    pwm: Channels)

  /** The zero-initialised state structure: CLOSED, COMMAND_CLOSE_MOTOR and FORWARD are all zero. */
  const BOOT := Lock([], false, None, false, Closed, CloseMotor, Forward, 0, 0, OFF)

  /** Conversion of a C int to uint8_t. */
  function U8(x: int): nat {
    x % 256
  }

  /** The one byte that equals it modulo 256. */
  lemma ByteConversion(x: int)
    ensures U8(x) < 256 && (x - U8(x)) % 256 == 0
  {
  }

  // ---------------------------------------------------------------- the worker's loop body

  function DriveAndArm(s: Lock): Lock {
    s.(pwm := Driven(s.pwm, s.direction, s.speed), armed := true)
  }

  /** A reversal stops both channels and restarts the ramp, but drives nothing yet. */
  function Reversed(s: Lock, status: Status, direction: Direction, c: Command): Lock {
    s.(pwm := OFF, status := status, speed := 20, increment := 20,
       direction := direction, command := c, armed := true)
  }

  function Started(s: Lock, status: Status, direction: Direction, c: Command): Lock {
    DriveAndArm(s.(direction := direction, command := c, speed := 20, increment := 20, status := status))
  }

  function AdvanceClosing(s: Lock): Lock {
    var v := U8(s.speed + s.increment);
    if v > 50 then DriveAndArm(s.(speed := v, increment := -20))
    else if v <= 0 then s.(pwm := OFF, status := Closed, speed := 20)
    else DriveAndArm(s.(speed := v))
  }

  function AdvanceOpening(s: Lock): Lock {
    var v := U8(s.speed + s.increment);
    if v > 50 then DriveAndArm(s.(speed := v, increment := -10))
    else if v <= 0 then s.(pwm := OFF, status := Opened, speed := 20)
    else if v <= 10 then s.(speed := v, holding := true)
    else DriveAndArm(s.(speed := v))
  }

  /** One dequeued command, up to the end of the loop body or to the start of the hold. */
  function Process(s: Lock, c: Command): Lock {
    match s.status
    case Closing => (
      match c
      case OpenMotor => Reversed(s, Opening, Forward, c)
      case CloseMotor => AdvanceClosing(s)
      case _ => s)
    case Opening => (
      match c
      case CloseMotor => Reversed(s, Closing, Reverse, c)
      case OpenMotor => AdvanceOpening(s)
      case _ => s)
    case Opened | Closed => (
      match c
      case OpenMotor => Started(s, Opening, Forward, c)
      case CloseMotor => Started(s, Closing, Reverse, c)
      case _ => s)
    case _ => s
  }

  // ---------------------------------------------------------------- steps and schedules

  /** `External` is a caller's open or close request; `Fire` and `Deliver` are the two statements of
      the timer callback; `Receive` is one loop iteration; `Resume` is the end of the hold. */
  datatype Step = External(c: Command) | Fire | Deliver | Receive | Resume

  predicate Enabled(s: Lock, step: Step) {
    match step
    case External(c) => (c == OpenMotor || c == CloseMotor) && |s.queue| < QUEUE_SIZE
    case Fire => s.armed && s.callback.None?
    case Deliver => s.callback.Some? && |s.queue| < QUEUE_SIZE
    case Receive => !s.holding && s.queue != []
    case Resume => s.holding
  }

  function Next(s: Lock, step: Step): Lock
    requires Enabled(s, step)
  {
    match step
    case External(c) => s.(queue := s.queue + [c])
    case Fire => s.(armed := false, callback := Some(s.command))
    case Deliver => s.(queue := s.queue + [s.callback.value], callback := None)
    case Receive => Process(s.(queue := s.queue[1..]), s.queue[0])
    case Resume => DriveAndArm(s.(holding := false))
  }

  /** When the timer may fire. `Free`: at any time. `Prompt`: only when the queue is empty, except
      during the hold. `Strict`: only when the queue is empty. In the last two the callback also
      queues its command before anything else happens, as long as there is room. */
  datatype Schedule = Free | Prompt | Strict

  predicate Allowed(schedule: Schedule, s: Lock, step: Step) {
    match schedule
    case Free => true
    case Prompt => (step.Fire? ==> s.queue == [] || s.holding) && CallbackFirst(s, step)
    case Strict => (step.Fire? ==> s.queue == []) && CallbackFirst(s, step)
  }

  predicate CallbackFirst(s: Lock, step: Step) {
    s.callback.Some? && |s.queue| < QUEUE_SIZE ==> step.Deliver?
  }

  /** `steps` can be taken from `s`, each one enabled and allowed. */
  predicate Run(schedule: Schedule, s: Lock, steps: seq<Step>)
    decreases steps
  {
    steps == [] ||
    (Enabled(s, steps[0]) && Allowed(schedule, s, steps[0]) &&
     Run(schedule, Next(s, steps[0]), steps[1..]))
  }

  function Final(s: Lock, steps: seq<Step>): Lock
    requires Run(Free, s, steps)
    decreases steps
  {
    if steps == [] then s else Final(Next(s, steps[0]), steps[1..])
  }

  lemma {:induction false} EveryRunIsFree(schedule: Schedule, s: Lock, steps: seq<Step>)
    requires Run(schedule, s, steps)
    ensures Run(Free, s, steps)
    decreases steps
  {
    hide Next;
    if steps == [] {
    } else {
      EveryRunIsFree(schedule, Next(s, steps[0]), steps[1..]);
    }
  }

  lemma {:induction false} RunsCompose(schedule: Schedule, s: Lock, front: seq<Step>, back: seq<Step>)
    requires Run(schedule, s, front) && Run(Free, s, front)
    requires Run(schedule, Final(s, front), back) && Run(Free, Final(s, front), back)
    ensures Run(schedule, s, front + back) && Run(Free, s, front + back)
    ensures Final(s, front + back) == Final(Final(s, front), back)
    decreases front
  {
    hide Next;
    if front == [] {
      assert front + back == back;
    } else {
      RunsCompose(schedule, Next(s, front[0]), front[1..], back);
      assert (front + back)[1..] == front[1..] + back;
    }
  }

  // ---------------------------------------------------------------- what every step keeps

  predicate Moving(s: Lock) {
    s.status == Opening || s.status == Closing
  }

  predicate Quiescent(s: Lock) {
    s.queue == [] && !s.armed && s.callback.None? && !s.holding
  }

  /** The only (speed, increment) pairs an opening passes through. */
  predicate OpeningPair(speed: nat, increment: int) {
    (increment == 20 && speed in {20, 40}) ||
    (increment == -10 && speed in {60, 50, 40, 30, 20, 10})
  }

  /** The only (speed, increment) pairs a closing passes through. */
  predicate ClosingPair(speed: nat, increment: int) {
    (increment == 20 && speed in {20, 40}) ||
    (increment == -20 && speed in {60, 40, 20})
  }

  predicate MotorCommand(c: Command) {
    c == OpenMotor || c == CloseMotor
  }

  predicate QueueOk(s: Lock) {
    && |s.queue| <= QUEUE_SIZE
    && (forall i :: 0 <= i < |s.queue| ==> MotorCommand(s.queue[i]))
    && (s.callback.Some? ==> MotorCommand(s.callback.value))
  }

  predicate CommandOk(s: Lock) {
    match s.status
    case Opened | Opening => s.command == OpenMotor
    case Closed | Closing => s.command == CloseMotor
    case _ => false
  }

  /** The ramp position, and the exact duty of both channels in it. */
  predicate RampOk(s: Lock) {
    match s.status
    case Opening =>
      && s.direction == Forward
      && OpeningPair(s.speed, s.increment)
      && s.pwm.reverse == 0
      && (s.pwm.forward == SpeedToDuty(if s.holding then 20 else s.speed) ||
          (s.pwm.forward == 0 && s.speed == 20 && s.increment == 20))
    case Closing =>
      && s.direction == Reverse
      && ClosingPair(s.speed, s.increment)
      && s.pwm.forward == 0
      && (s.pwm.reverse == SpeedToDuty(s.speed) ||
          (s.pwm.reverse == 0 && s.speed == 20 && s.increment == 20))
    case _ => s.pwm == OFF
  }

  predicate NotStranded(s: Lock) {
    Moving(s) ==> s.holding || s.armed || s.callback.Some? || s.queue != []
  }

  predicate Inv(s: Lock) {
    && QueueOk(s)
    && CommandOk(s)
    && RampOk(s)
    && NotStranded(s)
    && (s.holding ==> s.status == Opening && s.speed == 10)
  }

  lemma ProcessKeepsInv(s: Lock, c: Command)
    requires QueueOk(s) && CommandOk(s) && RampOk(s) && !s.holding && MotorCommand(c)
    ensures Inv(Process(s, c))
    ensures Process(s, c).queue == s.queue && Process(s, c).callback == s.callback
    ensures Process(s, c).command == c
  {
  }

  lemma StepKeepsInv(s: Lock, step: Step)
    requires Inv(s) && Enabled(s, step)
    ensures Inv(Next(s, step))
  {
    match step {
      case Receive =>
        assert MotorCommand(s.queue[0]);
        ProcessKeepsInv(s.(queue := s.queue[1..]), s.queue[0]);
      case _ =>
    }
  }

  lemma {:induction false} RunKeepsInv(s: Lock, steps: seq<Step>)
    requires Inv(s) && Run(Free, s, steps)
    ensures Inv(Final(s, steps))
    decreases steps
  {
    hide Next;
    if steps == [] {
    } else {
      StepKeepsInv(s, steps[0]);
      RunKeepsInv(Next(s, steps[0]), steps[1..]);
    }
  }

  // ---------------------------------------------------------------- safety over every schedule

  /** Whatever the schedule, forward and reverse are never driven together, an idle lock drives
      nothing, and the channel against the direction of travel is off while moving. */
  lemma ChannelsExclude(steps: seq<Step>)
    requires Run(Free, BOOT, steps)
    ensures var s := Final(BOOT, steps);
      && !(s.pwm.forward != 0 && s.pwm.reverse != 0)
      && (s.status == Opened || s.status == Closed ==> s.pwm == OFF)
      && (Moving(s) && s.direction == Forward ==> s.pwm.reverse == 0)
      && (Moving(s) && s.direction == Reverse ==> s.pwm.forward == 0)
  {
    RunKeepsInv(BOOT, steps);
  }

  /** Whatever the schedule, a moving lock is on its ramp, the byte addition of a negative increment
      never wraps, the speed stays within 60 and each duty within that of speed 60. */
  lemma RampNeverWraps(steps: seq<Step>)
    requires Run(Free, BOOT, steps)
    ensures var s := Final(BOOT, steps);
      && (s.status == Opening ==> OpeningPair(s.speed, s.increment))
      && (s.status == Closing ==> ClosingPair(s.speed, s.increment))
      && (Moving(s) ==> U8(s.speed + s.increment) == s.speed + s.increment)
      && s.pwm.forward <= 60 * 8191 / 100 && s.pwm.reverse <= 60 * 8191 / 100
  {
    RunKeepsInv(BOOT, steps);
    var s := Final(BOOT, steps);
    if Moving(s) {
      DutyIsMonotone(s.speed, 60);
      DutyIsMonotone(20, 60);
    }
  }

  /** Whatever the schedule, a moving lock always has something that will move it on, so one with
      nothing left to do is fully opened or fully closed. */
  lemma QuiescenceIsAtRest(steps: seq<Step>)
    requires Run(Free, BOOT, steps)
    ensures var s := Final(BOOT, steps);
      && (Moving(s) ==> s.queue != [] || s.armed || s.callback.Some? || s.holding)
      && (Quiescent(s) ==> (s.status == Opened || s.status == Closed) && s.pwm == OFF)
  {
    RunKeepsInv(BOOT, steps);
  }
}
