/** What a history of requests makes of the lock: holds, reversals and the final position. Queue
    entries look alike to the lock, so an observer beside it remembers where each came from. */
module LockHistory {
  import opened Options
  import opened LockDrive
  import opened LockModel
  import opened LockTermination

  datatype Origin = Caller | Timer

  /** `origins` runs parallel to the queue; `requested` and `taken` are the requests accepted into
      the queue and those dequeued; `holds` counts the holds since opening was last entered. */
  datatype Observed = Observed(
    lock: Lock,
    origins: seq<Origin>,
    requested: seq<Command>,
    taken: seq<Command>,
    holds: nat)

  const START := Observed(BOOT, [], [], [], 0)

  function StepRequest(step: Step): seq<Command> {
    if step.External? then [step.c] else []
  }

  /** The observer follows a step and never influences it. */
  function Observe(o: Observed, step: Step): (next: Observed)
    requires Enabled(o.lock, step) && |o.origins| == |o.lock.queue|
    ensures next.lock == Next(o.lock, step) && |next.origins| == |next.lock.queue|
    ensures next.requested == o.requested + StepRequest(step)
  {
    var next := o.(lock := Next(o.lock, step));
    match step
    case External(c) => next.(origins := o.origins + [Caller], requested := o.requested + [c])
    case Deliver => next.(origins := o.origins + [Timer])
    case Receive =>
      next.(origins := o.origins[1..],
            taken := if o.origins[0] == Caller then o.taken + [o.lock.queue[0]] else o.taken,
            holds := if next.lock.status == Opening && o.lock.status != Opening then 0
                     else if next.lock.holding then o.holds + 1
                     else o.holds)
    case _ => next
  }

  function Watch(schedule: Schedule, o: Observed, steps: seq<Step>): (end: Observed)
    requires |o.origins| == |o.lock.queue| && Run(schedule, o.lock, steps)
    ensures Run(Free, o.lock, steps) && end.lock == Final(o.lock, steps)
    ensures |end.origins| == |end.lock.queue|
    decreases steps
  {
    if steps == [] then o else Watch(schedule, Observe(o, steps[0]), steps[1..])
  }

  // ---------------------------------------------------------------- one hold per opening

  predicate HoldInv(o: Observed) {
    && Inv(o.lock) && |o.origins| == |o.lock.queue|
    && (o.lock.status == Opening ==> o.holds == if o.lock.speed == 10 then 1 else 0)
  }

  lemma HoldStep(o: Observed, step: Step)
    requires HoldInv(o) && Enabled(o.lock, step)
    ensures HoldInv(Observe(o, step))
  {
    StepKeepsInv(o.lock, step);
    if step.Receive? {
      assert MotorCommand(o.lock.queue[0]);
    }
  }

  lemma {:induction false} HoldRun(schedule: Schedule, o: Observed, steps: seq<Step>)
    requires HoldInv(o) && Run(schedule, o.lock, steps)
    ensures HoldInv(Watch(schedule, o, steps))
    decreases steps
  {
    hide Next;
    if steps == [] {
    } else {
      HoldStep(o, steps[0]);
      HoldRun(schedule, Observe(o, steps[0]), steps[1..]);
    }
  }

  /** Under every schedule an opening that completes has held exactly once since it was entered. */
  lemma CompletedOpeningHeldOnce(schedule: Schedule, steps: seq<Step>, step: Step)
    requires Run(schedule, BOOT, steps) && Enabled(Watch(schedule, START, steps).lock, step)
    ensures var before := Watch(schedule, START, steps);
      before.lock.status == Opening && Next(before.lock, step).status == Opened
      ==> before.holds == 1 && Observe(before, step).holds == 1 && before.lock.speed == 10
  {
    HoldRun(schedule, START, steps);
    CompletionNeedsHold(Watch(schedule, START, steps), step);
  }

  lemma CompletionNeedsHold(o: Observed, step: Step)
    requires HoldInv(o) && Enabled(o.lock, step)
    ensures o.lock.status == Opening && Next(o.lock, step).status == Opened
            ==> o.holds == 1 && Observe(o, step).holds == 1 && o.lock.speed == 10
  {
    if step.Receive? {
      assert MotorCommand(o.lock.queue[0]);
    }
  }

  // ---------------------------------------------------------------- the last request wins

  /** The requests among the queued commands. */
  function Pending(queue: seq<Command>, origins: seq<Origin>): seq<Command>
    requires |queue| == |origins|
  {
    if queue == [] then []
    else (if origins[0] == Caller then [queue[0]] else []) + Pending(queue[1..], origins[1..])
  }

  lemma {:induction false} PendingAppend(queue: seq<Command>, origins: seq<Origin>, c: Command, origin: Origin)
    requires |queue| == |origins|
    ensures Pending(queue + [c], origins + [origin]) ==
              Pending(queue, origins) + (if origin == Caller then [c] else [])
  {
    if queue == [] {
    } else {
      assert (queue + [c])[1..] == queue[1..] + [c];
      assert (origins + [origin])[1..] == origins[1..] + [origin];
      PendingAppend(queue[1..], origins[1..], c, origin);
    }
  }

  /** The last of some commands, or close if there is none: the lock boots closed. */
  function LastOrClose(commands: seq<Command>): Command {
    if commands == [] then CloseMotor else commands[|commands| - 1]
  }

  /** Where a command wants the lock. */
  function RestOf(c: Command): Status {
    if c == OpenMotor then Opened else Closed
  }

  /** A timer entry only ever stands at the head of the queue, and repeats the current command. */
  predicate StrictInv(o: Observed) {
    && Inv(o.lock) && |o.origins| == |o.lock.queue|
    && (forall i :: 0 <= i < |o.origins| && o.origins[i] == Timer
          ==> i == 0 && o.lock.queue[0] == o.lock.command)
    && (o.lock.callback.Some? ==> o.lock.queue == [] && o.lock.callback.value == o.lock.command)
    && o.requested == o.taken + Pending(o.lock.queue, o.origins)
    && o.lock.command == LastOrClose(o.taken)
  }

  /** What the observer sees when a command is taken. */
  lemma ObservedReceive(o: Observed)
    requires Inv(o.lock) && |o.origins| == |o.lock.queue| && Enabled(o.lock, Receive)
    ensures var next := Observe(o, Receive);
      && Inv(next.lock) && next.lock.queue == o.lock.queue[1..] && next.origins == o.origins[1..]
      && next.lock.command == o.lock.queue[0] && next.lock.callback == o.lock.callback
      && next.requested == o.requested
      && next.taken == o.taken + (if o.origins[0] == Caller then [o.lock.queue[0]] else [])
  {
    hide Process;
    StepKeepsInv(o.lock, Receive);
    ProcessKeepsInv(o.lock.(queue := o.lock.queue[1..]), o.lock.queue[0]);
    assert o.taken + [] == o.taken;
  }

  lemma StrictReceive(o: Observed)
    requires StrictInv(o) && Enabled(o.lock, Receive) && Allowed(Strict, o.lock, Receive)
    ensures StrictInv(Observe(o, Receive))
  {
    hide Observe, Next, Inv;
    ObservedReceive(o);
    var here := if o.origins[0] == Caller then [o.lock.queue[0]] else [];
    var later := Pending(o.lock.queue[1..], o.origins[1..]);
    assert Pending(o.lock.queue, o.origins) == here + later;
    assert o.taken + (here + later) == (o.taken + here) + later;
  }

  lemma StrictStep(o: Observed, step: Step)
    requires StrictInv(o) && Enabled(o.lock, step) && Allowed(Strict, o.lock, step)
    ensures StrictInv(Observe(o, step))
  {
    match step {
      case External(c) =>
        StepKeepsInv(o.lock, step);
        PendingAppend(o.lock.queue, o.origins, c, Caller);
      case Deliver =>
        StepKeepsInv(o.lock, step);
        PendingAppend(o.lock.queue, o.origins, o.lock.callback.value, Timer);
      case Receive => StrictReceive(o);
      case Fire | Resume => StepKeepsInv(o.lock, step);
    }
  }

  lemma {:induction false} StrictRun(o: Observed, steps: seq<Step>)
    requires StrictInv(o) && Run(Strict, o.lock, steps)
    ensures StrictInv(Watch(Strict, o, steps))
    decreases steps
  {
    hide Next;
    if steps == [] {
    } else {
      StrictStep(o, steps[0]);
      StrictRun(Observe(o, steps[0]), steps[1..]);
    }
  }

  /** Under the strict schedule a timer entry never turns the lock around, and the current command
      is the last request taken. */
  lemma TimerNeverReverses(steps: seq<Step>)
    requires Run(Strict, BOOT, steps)
    ensures var o := Watch(Strict, START, steps);
      && o.lock.command == LastOrClose(o.taken)
      && (Enabled(o.lock, Receive) && o.origins[0] == Timer
          ==> o.lock.queue[0] == o.lock.command && Next(o.lock, Receive).command == o.lock.command)
  {
    StrictRun(START, steps);
    var o := Watch(Strict, START, steps);
    if Enabled(o.lock, Receive) {
      ProcessKeepsInv(o.lock.(queue := o.lock.queue[1..]), o.lock.queue[0]);
    }
  }

  /** The requests a run makes, in order. */
  function Requests(steps: seq<Step>): seq<Command> {
    if steps == [] then [] else StepRequest(steps[0]) + Requests(steps[1..])
  }

  lemma {:induction false} WatchLogsRequests(schedule: Schedule, o: Observed, steps: seq<Step>)
    requires |o.origins| == |o.lock.queue| && Run(schedule, o.lock, steps)
    ensures Watch(schedule, o, steps).requested == o.requested + Requests(steps)
    decreases steps
  {
    hide Next, Observe, StepRequest;
    if steps == [] {
      assert o.requested + [] == o.requested;
    } else {
      var next := Observe(o, steps[0]);
      WatchLogsRequests(schedule, next, steps[1..]);
      assert o.requested + StepRequest(steps[0]) + Requests(steps[1..]) ==
             o.requested + (StepRequest(steps[0]) + Requests(steps[1..]));
    }
  }

  /** Under the strict schedule a lock at rest is where the last of its requests wanted it. */
  lemma LastRequestWins(steps: seq<Step>)
    requires Run(Strict, BOOT, steps) && Run(Free, BOOT, steps) && Quiescent(Final(BOOT, steps))
    ensures Final(BOOT, steps).status == RestOf(LastOrClose(Requests(steps)))
  {
    StrictRun(START, steps);
    WatchLogsRequests(Strict, START, steps);
    var o := Watch(Strict, START, steps);
    assert o.requested == o.taken;
  }

  // ---------------------------------------------------------------- the last queued command, always

  /** What a step puts into the queue. */
  function StepQueued(s: Lock, step: Step): seq<Command> {
    match step
    case External(c) => [c]
    case Deliver => if s.callback.Some? then [s.callback.value] else []
    case _ => []
  }

  /** Every command that a run puts into the queue, by callers or by the timer, in order. */
  function Queued(s: Lock, steps: seq<Step>): seq<Command>
    requires Run(Free, s, steps)
    decreases steps
  {
    if steps == [] then [] else StepQueued(s, steps[0]) + Queued(Next(s, steps[0]), steps[1..])
  }

  /** The command the lock will have obeyed once the queue is empty. */
  function Target(s: Lock): Command {
    if s.queue == [] then s.command else s.queue[|s.queue| - 1]
  }

  lemma StepMovesTarget(s: Lock, step: Step)
    requires Inv(s) && Enabled(s, step)
    ensures var queued := StepQueued(s, step);
      Target(Next(s, step)) == if queued == [] then Target(s) else queued[0]
  {
    if step.Receive? {
      ProcessKeepsInv(s.(queue := s.queue[1..]), s.queue[0]);
    }
  }

  lemma {:induction false} TargetIsLastQueued(s: Lock, steps: seq<Step>)
    requires Inv(s) && Run(Free, s, steps)
    ensures var queued := Queued(s, steps);
      Target(Final(s, steps)) == if queued == [] then Target(s) else queued[|queued| - 1]
    decreases steps
  {
    hide Next, Target;
    if steps == [] {
    } else {
      StepKeepsInv(s, steps[0]);
      StepMovesTarget(s, steps[0]);
      TargetIsLastQueued(Next(s, steps[0]), steps[1..]);
    }
  }

  /** Under every schedule a lock at rest has obeyed the command queued last, by a caller or by the
      timer. */
  lemma LastQueuedWins(steps: seq<Step>)
    requires Run(Free, BOOT, steps) && Quiescent(Final(BOOT, steps))
    ensures Final(BOOT, steps).status == RestOf(LastOrClose(Queued(BOOT, steps)))
  {
    RunKeepsInv(BOOT, steps);
    TargetIsLastQueued(BOOT, steps);
  }

  // ---------------------------------------------------------------- the prompt schedule is too weak

  /** Opening, with an empty queue and the timer armed. */
  function OpeningAt(speed: nat, increment: int): Lock {
    Lock([], true, None, false, Opening, OpenMotor, Forward, speed, increment,
         Channels(SpeedToDuty(speed), 0))
  }

  const TICK := [Fire, Deliver, Receive]

  /** One timer period on the ramp. */
  lemma Tick(speed: nat, increment: int, next: nat, nextIncrement: int)
    requires OpeningPair(speed, increment) && next == U8(speed + increment) > 10
    requires nextIncrement == if next > 50 then -10 else increment
    ensures Run(Prompt, OpeningAt(speed, increment), TICK) && Run(Free, OpeningAt(speed, increment), TICK)
    ensures Final(OpeningAt(speed, increment), TICK) == OpeningAt(next, nextIncrement)
    ensures Requests(TICK) == []
  {
    var s := OpeningAt(speed, increment);
    Take(s, Fire, [Deliver, Receive]);
    Take(Next(s, Fire), Deliver, [Receive]);
    Take(Next(Next(s, Fire), Deliver), Receive, []);
  }

  /** Unfolds the run functions by one step. */
  lemma Take(s: Lock, step: Step, rest: seq<Step>)
    requires Enabled(s, step) && Allowed(Prompt, s, step)
    ensures Run(Prompt, Next(s, step), rest) && Run(Free, Next(s, step), rest) ==>
      && Run(Prompt, s, [step] + rest) && Run(Free, s, [step] + rest)
      && Final(s, [step] + rest) == Final(Next(s, step), rest)
    ensures Requests([step] + rest) == StepRequest(step) + Requests(rest)
  {
    hide Next;
    assert ([step] + rest)[1..] == rest;
  }

  lemma RequestsOfTail(step: Step, rest: seq<Step>)
    ensures Requests([step] + rest) == StepRequest(step) + Requests(rest)
  {
    assert ([step] + rest)[1..] == rest;
  }

  lemma {:induction false} RequestsCompose(front: seq<Step>, back: seq<Step>)
    ensures Requests(front + back) == Requests(front) + Requests(back)
  {
    hide Requests;
    if front == [] {
      assert front + back == back;
      NoRequests(front);
    } else {
      var step, rest := front[0], front[1..];
      assert front == [step] + rest && front + back == [step] + (rest + back);
      RequestsOfTail(step, rest);
      RequestsOfTail(step, rest + back);
      RequestsCompose(rest, back);
    }
  }

  lemma Join(s: Lock, front: seq<Step>, back: seq<Step>)
    requires Run(Prompt, s, front) && Run(Free, s, front)
    requires Run(Prompt, Final(s, front), back) && Run(Free, Final(s, front), back)
    ensures Run(Prompt, s, front + back) && Run(Free, s, front + back)
    ensures Final(s, front + back) == Final(Final(s, front), back)
    ensures Requests(front + back) == Requests(front) + Requests(back)
  {
    RunsCompose(Prompt, s, front, back);
    RequestsCompose(front, back);
  }

  const OPEN_UP := [External(OpenMotor), Receive]

  lemma OpensUp()
    ensures Run(Prompt, BOOT, OPEN_UP) && Run(Free, BOOT, OPEN_UP)
    ensures Final(BOOT, OPEN_UP) == OpeningAt(20, 20) && Requests(OPEN_UP) == [OpenMotor]
  {
    Take(BOOT, External(OpenMotor), [Receive]);
    Take(Next(BOOT, External(OpenMotor)), Receive, []);
    assert Next(Next(BOOT, External(OpenMotor)), Receive) == OpeningAt(20, 20);
  }

  lemma ToLowSpeed() returns (steps: seq<Step>)
    ensures Run(Prompt, BOOT, steps) && Run(Free, BOOT, steps)
    ensures Final(BOOT, steps) == OpeningAt(20, -10) && Requests(steps) == [OpenMotor]
  {
    hide Next;
    OpensUp();
    steps := OPEN_UP;
    Tick(20, 20, 40, 20);
    Join(BOOT, steps, TICK);
    steps := steps + TICK;
    Tick(40, 20, 60, -10);
    Join(BOOT, steps, TICK);
    steps := steps + TICK;
    Tick(60, -10, 50, -10);
    Join(BOOT, steps, TICK);
    steps := steps + TICK;
    Tick(50, -10, 40, -10);
    Join(BOOT, steps, TICK);
    steps := steps + TICK;
    Tick(40, -10, 30, -10);
    Join(BOOT, steps, TICK);
    steps := steps + TICK;
    Tick(30, -10, 20, -10);
    Join(BOOT, steps, TICK);
    steps := steps + TICK;
  }

  /** In the hold that a duplicate request entered early: the timer, still armed, has fired behind
      a close request. */
  const OVERTAKING := Lock([CloseMotor, OpenMotor], false, None, true, Opening, OpenMotor, Forward, 10, -10,
                           Channels(1638, 0))

  const INTO_HOLD := [External(OpenMotor), Receive, External(CloseMotor), Fire, Deliver]
  const OUT_OF_HOLD := [Resume, Receive, Receive]

  /** The last state on the ramp up, with a duplicate request taken: the hold begins early. */
  const HELD := OpeningAt(20, -10).(holding := true, speed := 10)

  lemma DuplicateHolds()
    ensures var s := OpeningAt(20, -10);
      && Enabled(s, External(OpenMotor)) && Allowed(Prompt, s, External(OpenMotor))
      && var t := Next(s, External(OpenMotor));
         Enabled(t, Receive) && Allowed(Prompt, t, Receive) && Next(t, Receive) == HELD
  {
  }

  lemma TimerOvertakes()
    ensures Run(Prompt, OpeningAt(20, -10), INTO_HOLD) && Run(Free, OpeningAt(20, -10), INTO_HOLD)
    ensures Requests(INTO_HOLD) == [OpenMotor, CloseMotor]
    ensures Final(OpeningAt(20, -10), INTO_HOLD) == OVERTAKING
  {
    hide Process;
    var s := OpeningAt(20, -10);
    DuplicateHolds();
    var s3 := Next(HELD, External(CloseMotor));
    var s4 := Next(s3, Fire);
    assert Next(s4, Deliver) == OVERTAKING;
    Take(s4, Deliver, []);
    Take(s3, Fire, [Deliver]);
    Take(HELD, External(CloseMotor), [Fire, Deliver]);
    Take(Next(s, External(OpenMotor)), Receive, [External(CloseMotor), Fire, Deliver]);
    Take(s, External(OpenMotor), [Receive, External(CloseMotor), Fire, Deliver]);
  }

  lemma RequestIsUndone()
    ensures Run(Prompt, OVERTAKING, OUT_OF_HOLD) && Run(Free, OVERTAKING, OUT_OF_HOLD)
    ensures Requests(OUT_OF_HOLD) == []
    ensures Final(OVERTAKING, OUT_OF_HOLD) == OpeningAt(20, 20).(pwm := OFF)
  {
    var s1 := Next(OVERTAKING, Resume);
    var s2 := Next(s1, Receive);
    assert s2.queue == [OpenMotor];
    assert Next(s2, Receive) == OpeningAt(20, 20).(pwm := OFF);
    Take(s2, Receive, []);
    Take(s1, Receive, [Receive]);
    Take(OVERTAKING, Resume, [Receive, Receive]);
  }

  lemma Undone() returns (steps: seq<Step>)
    ensures Run(Prompt, BOOT, steps) && Run(Free, BOOT, steps)
    ensures Requests(steps) == [OpenMotor, OpenMotor, CloseMotor]
    ensures Final(BOOT, steps) == OpeningAt(20, 20).(pwm := OFF)
  {
    steps := ToLowSpeed();
    TimerOvertakes();
    Join(BOOT, steps, INTO_HOLD);
    steps := steps + INTO_HOLD;
    RequestIsUndone();
    Join(BOOT, steps, OUT_OF_HOLD);
    steps := steps + OUT_OF_HOLD;
  }

  /** Left alone, a lock that has just turned to opening ends opened. */
  lemma OpensUndisturbed() returns (steps: seq<Step>)
    ensures var s := OpeningAt(20, 20).(pwm := OFF);
      && Run(Prompt, s, steps) && Run(Free, s, steps) && Requests(steps) == []
      && Quiescent(Final(s, steps)) && Final(s, steps).status == Opened
  {
    hide Next;
    var o := Observed(OpeningAt(20, 20).(pwm := OFF), [], [OpenMotor], [OpenMotor], 0);
    steps := ComesToRest(Strict, o.lock);
    StrictRunIsPrompt(o.lock, steps);
    NoRequests(steps);
    StrictRun(o, steps);
    WatchLogsRequests(Strict, o, steps);
    assert StrictInv(Watch(Strict, o, steps));
  }

  /** Under the prompt schedule, which differs from the strict one only during the hold, the last
      request can lose: this run's last request is to close, and it ends at rest and opened. */
  lemma PromptScheduleLosesLastRequest() returns (steps: seq<Step>)
    ensures Run(Prompt, BOOT, steps) && Run(Free, BOOT, steps)
    ensures Requests(steps) == [OpenMotor, OpenMotor, CloseMotor]
    ensures Quiescent(Final(BOOT, steps)) && Final(BOOT, steps).status == Opened
  {
    var front := Undone();
    var back := OpensUndisturbed();
    Join(BOOT, front, back);
    steps := front + back;
  }

  lemma {:induction false} NoRequests(steps: seq<Step>)
    requires Externals(steps) == 0
    ensures Requests(steps) == []
  {
    if steps == [] {
    } else {
      NoRequests(steps[1..]);
    }
  }
}
