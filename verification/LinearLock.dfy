/** The lock object itself, updated in place by its callers, its timer and its worker. */
module LinearLock {
  import opened Options
  import opened LockDrive
  import opened LockModel

  /** What the worker's loop does before it blocks: it empties the queue or stops in the hold. */
  function Drained(s: Lock): Lock
    requires !s.holding
    decreases |s.queue|
  {
    if s.queue == [] then s
    else
      var next := Next(s, Receive);
      if next.holding then next else Drained(next)
  }

  lemma ReceiveShortens(s: Lock)
    requires Enabled(s, Receive)
    ensures |Next(s, Receive).queue| == |s.queue| - 1
  {
  }

  /** A drained lock has been through as many loop iterations as the queue got shorter, in any
      state of the timer, and cannot take another one. */
  lemma {:induction false} DrainedIsARun(s: Lock) returns (steps: seq<Step>)
    requires !s.holding
    ensures Run(Free, s, steps) && Final(s, steps) == Drained(s)
    ensures |steps| == |s.queue| - |Drained(s).queue|
    ensures !Enabled(Drained(s), Receive)
    decreases |s.queue|
  {
    hide Next;
    if s.queue == [] {
      steps := [];
    } else {
      var next := Next(s, Receive);
      ReceiveShortens(s);
      var rest := [];
      if !next.holding {
        rest := DrainedIsARun(next);
      }
      steps := [Receive] + rest;
      assert steps[1..] == rest;
    }
  }

  class LinearLock {
    var commandQueue: seq<Command>
    var timerArmed: bool
    var callback: Option<Command>
    var holding: bool
    var status: Status
    var currentCommand: Command
    var currentDirection: Direction
    var speed: nat
    var speedIncrement: int
    const drive: MotorDriver

    function State(): Lock
      reads this, drive
    {
      Lock(commandQueue, timerArmed, callback, holding, status, currentCommand, currentDirection,
           speed, speedIncrement, drive.State())
    }

    constructor ()
      ensures State() == BOOT && fresh(drive)
    {
      commandQueue, timerArmed, callback, holding := [], false, None, false;
      status, currentCommand, currentDirection := Closed, CloseMotor, Forward;
      speed, speedIncrement := 0, 0;
      drive := new MotorDriver();
    }

    /** Both setters block on a full queue; `sent` is false where they would. */
    method SetMotorOpen() returns (sent: bool)
      modifies this
      ensures sent <==> old(Enabled(State(), External(OpenMotor)))
      ensures State() == if sent then old(Next(State(), External(OpenMotor))) else old(State())
    {
      sent := |commandQueue| < QUEUE_SIZE;
      if sent {
        commandQueue := commandQueue + [OpenMotor];
      }
    }

    method SetMotorClose() returns (sent: bool)
      modifies this
      ensures sent <==> old(Enabled(State(), External(CloseMotor)))
      ensures State() == if sent then old(Next(State(), External(CloseMotor))) else old(State())
    {
      sent := |commandQueue| < QUEUE_SIZE;
      if sent {
        commandQueue := commandQueue + [CloseMotor];
      }
    }

    /** The timer expires, and its callback reads the current command. */
    method TimerFires()
      requires Enabled(State(), Fire)
      modifies this
      ensures State() == old(Next(State(), Fire))
    {
      timerArmed := false;
      callback := Some(currentCommand);
    }

    /** The callback's send succeeds. */
    method TimerDelivers()
      requires Enabled(State(), Deliver)
      modifies this
      ensures State() == old(Next(State(), Deliver))
    {
      commandQueue := commandQueue + [callback.value];
      callback := None;
    }

    method StartTimer()
      modifies this`timerArmed
      ensures timerArmed
    {
      timerArmed := true;
    }

    /** One iteration of the worker's loop; it ends early in the hold. */
    method TakeCommand()
      requires Enabled(State(), Receive)
      modifies this, drive
      ensures State() == old(Next(State(), Receive))
    {
      var command := commandQueue[0];
      commandQueue := commandQueue[1..];
      match status {
        case Closing =>
          match command {
            case OpenMotor =>
              drive.Idle();
              status := Opening;
              speed := 20;
              speedIncrement := 20;
              currentDirection := Forward;
              currentCommand := OpenMotor;
              StartTimer();
            case CloseMotor => ContinueClosing();
            case _ =>
          }
        case Opening =>
          match command {
            case CloseMotor =>
              drive.Idle();
              status := Closing;
              speed := 20;
              speedIncrement := 20;
              currentDirection := Reverse;
              currentCommand := CloseMotor;
              StartTimer();
            case OpenMotor => ContinueOpening();
            case _ =>
          }
        case Opened | Closed =>
          match command {
            case OpenMotor => StartMoving(Opening, Forward, OpenMotor);
            case CloseMotor => StartMoving(Closing, Reverse, CloseMotor);
            case _ =>
          }
        case _ =>
      }
    }

    method StartMoving(target: Status, direction: Direction, command: Command)
      modifies this, drive
      ensures State() == Started(old(State()), target, direction, command)
    {
      currentDirection := direction;
      currentCommand := command;
      speed := 20;
      speedIncrement := 20;
      drive.Drive(currentDirection, speed);
      status := target;
      StartTimer();
    }

    method ContinueClosing()
      modifies this, drive
      ensures State() == AdvanceClosing(old(State()))
    {
      speed := U8(speed + speedIncrement);
      if speed > 50 {
        speedIncrement := -20;
      } else if speed <= 0 {
        drive.Idle();
        status := Closed;
        speed := 20;
        return;
      }
      drive.Drive(currentDirection, speed);
      StartTimer();
    }

    method ContinueOpening()
      modifies this, drive
      ensures State() == AdvanceOpening(old(State()))
    {
      speed := U8(speed + speedIncrement);
      if speed > 50 {
        speedIncrement := -10;
      } else if speed <= 0 {
        drive.Idle();
        status := Opened;
        speed := 20;
        return;
      } else if speed <= 10 {
        holding := true;
        return;
      }
      drive.Drive(currentDirection, speed);
      StartTimer();
    }

    /** The hold ends: the low speed is applied at last and the next update scheduled. */
    method EndHold()
      requires Enabled(State(), Resume)
      modifies this, drive
      ensures State() == old(Next(State(), Resume))
    {
      holding := false;
      drive.Drive(currentDirection, speed);
      StartTimer();
    }

    /** The worker's loop, until it blocks on an empty queue or in the hold. */
    method RunUntilBlocked()
      requires !holding
      modifies this, drive
      ensures State() == Drained(old(State()))
    {
      while commandQueue != [] && !holding
        invariant holding ==> State() == Drained(old(State()))
        invariant !holding ==> Drained(State()) == Drained(old(State()))
        decreases |commandQueue|
      {
        TakeCommand();
      }
    }
  }
}
