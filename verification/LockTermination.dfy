/** When the lock comes to rest: a bound on the length of every run, and the schedule under which
    there is no bound. */
module LockTermination {
  import opened Options
  import opened LockDrive
  import opened LockModel

  // ---------------------------------------------------------------- the measure

  /** Commands that are queued or on their way into the queue. */
  function Tokens(s: Lock): nat {
    |s.queue| + Count(s.callback.Some?) + Count(s.armed) + Count(s.holding)
  }

  /** Ramp steps to go, with a lock at rest above every moving one. */
  function Rank(s: Lock): nat {
    match s.status
    case Opening =>
      if s.increment == 20 then (if s.speed == 20 then 9 else 8)
      else if s.holding then 2
      else if s.speed == 60 then 7
      else if s.speed == 50 then 6
      else if s.speed == 40 then 5
      else if s.speed == 30 then 4
      else if s.speed == 20 then 3
      else 1
    case Closing =>
      if s.increment == 20 then (if s.speed == 20 then 5 else 4)
      else if s.speed == 60 then 3
      else if s.speed == 40 then 2
      else 1
    case _ => 10
  }

  function Potential(s: Lock): nat {
    44 * Tokens(s) + 4 * Rank(s) + 2 * Count(s.armed) + Count(s.callback.Some?)
  }

  /** A command against the direction of travel, taken while the timer is not armed. */
  predicate StaleReversal(s: Lock, step: Step) {
    && step.Receive? && Enabled(s, step)
    && Moving(s) && !s.armed && s.queue[0] != s.command
  }

  /** The effect of one command on tokens and rank: the ramp advances with the direction of travel,
      and anything else costs the command itself. */
  lemma OpeningLowersPotential(s: Lock, c: Command)
    requires RampOk(s) && s.status == Opening && !s.holding && MotorCommand(c)
    ensures var t := Process(s, c);
      && Potential(t) <= Potential(s) + 44 + 44
      && (c == OpenMotor || s.armed ==> Potential(t) < Potential(s) + 44)
  {
    assert c == OpenMotor ==> Process(s, c) == AdvanceOpening(s);
  }

  lemma ClosingLowersPotential(s: Lock, c: Command)
    requires RampOk(s) && s.status == Closing && !s.holding && MotorCommand(c)
    ensures var t := Process(s, c);
      && Potential(t) <= Potential(s) + 44 + 44
      && (c == CloseMotor || s.armed ==> Potential(t) < Potential(s) + 44)
  {
    assert c == CloseMotor ==> Process(s, c) == AdvanceClosing(s);
  }

  lemma StartLowersPotential(s: Lock, c: Command)
    requires (s.status == Opened || s.status == Closed) && MotorCommand(c)
    ensures Potential(Process(s, c)) < Potential(s) + 44
  {
  }

  lemma ReceiveLowersPotential(s: Lock)
    requires Inv(s) && Enabled(s, Receive)
    ensures StaleReversal(s, Receive) ==> Potential(Next(s, Receive)) <= Potential(s) + 44
    ensures !StaleReversal(s, Receive) ==> Potential(Next(s, Receive)) < Potential(s)
  {
    var c := s.queue[0];
    assert MotorCommand(c);
    var r := s.(queue := s.queue[1..]);
    assert Potential(r) == Potential(s) - 44;
    match s.status {
      case Opening => OpeningLowersPotential(r, c);
      case Closing => ClosingLowersPotential(r, c);
      case _ => StartLowersPotential(r, c);
    }
  }

  /** Every step lowers the potential, except a request and a stale reversal, which raise it by at
      most 44. */
  lemma StepLowersPotential(s: Lock, step: Step)
    requires Inv(s) && Enabled(s, step)
    ensures step.External? || StaleReversal(s, step)
            ==> Potential(Next(s, step)) <= Potential(s) + 44
    ensures !step.External? && !StaleReversal(s, step)
            ==> Potential(Next(s, step)) < Potential(s)
  {
    if step.Receive? {
      ReceiveLowersPotential(s);
    }
  }

  // ---------------------------------------------------------------- length of runs

  function Externals(steps: seq<Step>): nat {
    if steps == [] then 0 else Count(steps[0].External?) + Externals(steps[1..])
  }

  function StaleReversals(s: Lock, steps: seq<Step>): nat
    requires Run(Free, s, steps)
    decreases steps
  {
    if steps == [] then 0
    else Count(StaleReversal(s, steps[0])) + StaleReversals(Next(s, steps[0]), steps[1..])
  }

  /** Under any schedule the length of a run is determined, up to a constant factor, by its requests
      and its stale reversals: with finitely many requests, runs are bounded if and only if their
      stale reversals are. */
  lemma {:induction false} LengthOfAnyRun(s: Lock, steps: seq<Step>)
    requires Inv(s) && Run(Free, s, steps)
    ensures Externals(steps) + StaleReversals(s, steps) <= |steps|
    ensures |steps| <= Potential(s) + 45 * (Externals(steps) + StaleReversals(s, steps))
    decreases steps
  {
    hide Next;
    if steps == [] {
    } else {
      StepKeepsInv(s, steps[0]);
      StepLowersPotential(s, steps[0]);
      LengthOfAnyRun(Next(s, steps[0]), steps[1..]);
    }
  }

  /** Neither channel is driven anywhere along the run. */
  predicate Undriven(s: Lock, steps: seq<Step>)
    requires Run(Free, s, steps)
    decreases steps
  {
    s.pwm == OFF && (steps == [] || Undriven(Next(s, steps[0]), steps[1..]))
  }

  // ---------------------------------------------------------------- the prompt schedule terminates

  /** With the timer spent, the command it queued is the next one taken. */
  predicate PromptInv(s: Lock) {
    && Inv(s)
    && (Moving(s) && !s.holding && !s.armed && s.callback.None?
        ==> s.queue != [] && s.queue[0] == s.command)
    && (!s.holding && !s.armed && s.callback.Some?
        ==> s.queue == [] && s.callback.value == s.command)
  }

  lemma PromptStep(s: Lock, step: Step)
    requires PromptInv(s) && Enabled(s, step) && Allowed(Prompt, s, step)
    ensures PromptInv(Next(s, step)) && !StaleReversal(s, step)
  {
    StepKeepsInv(s, step);
    if step.Receive? {
      ProcessKeepsInv(s.(queue := s.queue[1..]), s.queue[0]);
    }
  }

  lemma {:induction false} PromptRun(s: Lock, steps: seq<Step>)
    requires PromptInv(s) && Run(Prompt, s, steps)
    ensures Run(Free, s, steps)
    ensures PromptInv(Final(s, steps)) && StaleReversals(s, steps) == 0
    decreases steps
  {
    hide Next;
    EveryRunIsFree(Prompt, s, steps);
    if steps == [] {
    } else {
      PromptStep(s, steps[0]);
      PromptRun(Next(s, steps[0]), steps[1..]);
    }
  }

  /** With n requests, every run of the prompt schedule ends within 40 + 45 n steps. */
  lemma PromptRunsTerminate(steps: seq<Step>)
    requires Run(Prompt, BOOT, steps)
    ensures |steps| <= 40 + 45 * Externals(steps)
  {
    PromptRun(BOOT, steps);
    LengthOfAnyRun(BOOT, steps);
  }

  /** No schedule stops early: until the lock is quiescent, one of its own steps can be taken. */
  lemma SomeStepIsAllowed(schedule: Schedule, s: Lock) returns (step: Step)
    requires Inv(s) && !Quiescent(s)
    ensures !step.External? && Enabled(s, step) && Allowed(schedule, s, step)
  {
    step :=
      if s.callback.Some? && |s.queue| < QUEUE_SIZE then Deliver
      else if s.holding then Resume
      else if s.queue != [] then Receive
      else Fire;
  }

  /** The strict schedule is a case of the prompt one. */
  lemma {:induction false} StrictRunIsPrompt(s: Lock, steps: seq<Step>)
    requires Run(Strict, s, steps)
    ensures Run(Prompt, s, steps)
    decreases steps
  {
    hide Next;
    if steps == [] {
    } else {
      StrictRunIsPrompt(Next(s, steps[0]), steps[1..]);
    }
  }

  /** Taking such steps for as long as there are any, from any state the prompt schedule reaches,
      brings the lock to rest fully opened or fully closed. */
  lemma {:induction false} ComesToRest(schedule: Schedule, s: Lock) returns (steps: seq<Step>)
    requires PromptInv(s) && schedule != Free
    ensures Run(schedule, s, steps) && Run(Free, s, steps) && Externals(steps) == 0
    ensures var t := Final(s, steps); Quiescent(t) && (t.status == Opened || t.status == Closed)
    decreases Potential(s)
  {
    hide Next;
    if Quiescent(s) {
      steps := [];
    } else {
      var step := SomeStepIsAllowed(schedule, s);
      PromptStep(s, step);
      StepLowersPotential(s, step);
      var rest := ComesToRest(schedule, Next(s, step));
      steps := [step] + rest;
      assert steps[1..] == rest;
    }
  }

  // ---------------------------------------------------------------- the free schedule does not

  /** Closing with both channels off, and two opposite commands queued. */
  const SPIN := Lock([OpenMotor, CloseMotor], false, None, false, Closing, CloseMotor, Reverse, 20, 20, OFF)

  /** Half a lap later: the same, but opening. */
  const SPUN := Lock([CloseMotor, OpenMotor], false, None, false, Opening, OpenMotor, Forward, 20, 20, OFF)

  const HALF_LAP := [Receive, Fire, Deliver]
  const SPIN_LAP := HALF_LAP + HALF_LAP

  lemma HalfLapStates(s: Lock, t: Lock)
    requires (t == SPUN && s == SPIN.(pwm := s.pwm)) || (s == SPUN && t == SPIN)
    ensures Enabled(s, Receive) && StaleReversal(s, Receive)
    ensures var s1 := Next(s, Receive);
      s1.pwm == OFF && Enabled(s1, Fire) &&
      var s2 := Next(s1, Fire);
      s2.pwm == OFF && Enabled(s2, Deliver) && Next(s2, Deliver) == t
  {
    assert Next(s, Receive).queue == [s.queue[1]];
  }

  /** Half a lap stops the motor, whatever drove it before. */
  lemma HalfLap(s: Lock, t: Lock)
    requires (t == SPUN && s == SPIN.(pwm := s.pwm)) || (s == SPUN && t == SPIN)
    ensures Run(Free, s, HALF_LAP) && Final(s, HALF_LAP) == t
    ensures StaleReversals(s, HALF_LAP) == 1 && Externals(HALF_LAP) == 0
    ensures s.pwm == OFF ==> Undriven(s, HALF_LAP)
  {
    hide Next;
    HalfLapStates(s, t);
    var s1 := Next(s, Receive);
    var s2 := Next(s1, Fire);
    RunFromTail(s, Receive, [Fire, Deliver]);
    RunFromTail(s1, Fire, [Deliver]);
    RunFromTail(s2, Deliver, []);
  }

  lemma OneLap(pwm: Channels)
    ensures var s := SPIN.(pwm := pwm);
      && Run(Free, s, SPIN_LAP) && Final(s, SPIN_LAP) == SPIN
      && StaleReversals(s, SPIN_LAP) == 2 && Externals(SPIN_LAP) == 0
      && (pwm == OFF ==> Undriven(s, SPIN_LAP))
  {
    var s := SPIN.(pwm := pwm);
    HalfLap(s, SPUN);
    HalfLap(SPUN, SPIN);
    RunsCompose(Free, s, HALF_LAP, HALF_LAP);
    CountsCompose(s, HALF_LAP, HALF_LAP);
    ExternalsCompose(HALF_LAP, HALF_LAP);
  }

  /** Unfolds the run functions by one step. */
  lemma RunFromTail(s: Lock, step: Step, rest: seq<Step>)
    requires Enabled(s, step)
    ensures Run(Free, Next(s, step), rest) ==>
      && Run(Free, s, [step] + rest)
      && Final(s, [step] + rest) == Final(Next(s, step), rest)
      && StaleReversals(s, [step] + rest) ==
           Count(StaleReversal(s, step)) + StaleReversals(Next(s, step), rest)
      && Undriven(s, [step] + rest) == (s.pwm == OFF && Undriven(Next(s, step), rest))
    ensures Externals([step] + rest) == Count(step.External?) + Externals(rest)
  {
    hide Next;
    assert ([step] + rest)[1..] == rest;
  }

  /** A close request, then an open request that is still queued when the timer fires. */
  const INTO_SPIN := [External(CloseMotor), Receive, External(OpenMotor), Fire, Deliver]

  lemma TwoRequestsStall()
    ensures Run(Free, BOOT, INTO_SPIN)
    ensures Final(BOOT, INTO_SPIN) == SPIN.(pwm := Channels(0, 1638))
    ensures Externals(INTO_SPIN) == 2
  {
    var s1 := Next(BOOT, External(CloseMotor));
    var s2 := Next(s1, Receive);
    assert s2 == Lock([], true, None, false, Closing, CloseMotor, Reverse, 20, 20, Channels(0, 1638));
    var s3 := Next(s2, External(OpenMotor));
    var s4 := Next(s3, Fire);
    assert Next(s4, Deliver) == SPIN.(pwm := Channels(0, 1638));
    RunFromTail(BOOT, External(CloseMotor), [Receive, External(OpenMotor), Fire, Deliver]);
    RunFromTail(s1, Receive, [External(OpenMotor), Fire, Deliver]);
    RunFromTail(s2, External(OpenMotor), [Fire, Deliver]);
    RunFromTail(s3, Fire, [Deliver]);
    RunFromTail(s4, Deliver, []);
  }

  /** Two requests bring a booted lock into the spin. */
  lemma SpinIsReachable()
    ensures Run(Free, BOOT, INTO_SPIN + SPIN_LAP)
    ensures Final(BOOT, INTO_SPIN + SPIN_LAP) == SPIN
    ensures Externals(INTO_SPIN + SPIN_LAP) == 2
  {
    TwoRequestsStall();
    OneLap(Channels(0, 1638));
    RunsCompose(Free, BOOT, INTO_SPIN, SPIN_LAP);
    ExternalsCompose(INTO_SPIN, SPIN_LAP);
  }

  /** After those two requests, and without any other, the free schedule has runs of every length
      that keep reversing and never drive a channel. */
  lemma {:induction false} FreeScheduleSpins(laps: nat) returns (steps: seq<Step>)
    ensures Run(Free, SPIN, steps) && Final(SPIN, steps) == SPIN
    ensures |steps| == 6 * laps && Externals(steps) == 0
    ensures StaleReversals(SPIN, steps) == 2 * laps && Undriven(SPIN, steps)
  {
    hide Next;
    if laps == 0 {
      steps := [];
    } else {
      var rest := FreeScheduleSpins(laps - 1);
      OneLap(OFF);
      RunsCompose(Free, SPIN, SPIN_LAP, rest);
      CountsCompose(SPIN, SPIN_LAP, rest);
      ExternalsCompose(SPIN_LAP, rest);
      steps := SPIN_LAP + rest;
    }
  }

  lemma {:induction false} ExternalsCompose(front: seq<Step>, back: seq<Step>)
    ensures Externals(front + back) == Externals(front) + Externals(back)
  {
    if front == [] {
      assert front + back == back;
    } else {
      ExternalsCompose(front[1..], back);
      assert (front + back)[1..] == front[1..] + back;
    }
  }

  lemma {:induction false} CountsCompose(s: Lock, front: seq<Step>, back: seq<Step>)
    requires Run(Free, s, front) && Run(Free, Final(s, front), back)
    ensures Run(Free, s, front + back)
    ensures StaleReversals(s, front + back) ==
              StaleReversals(s, front) + StaleReversals(Final(s, front), back)
    ensures Undriven(s, front) && Undriven(Final(s, front), back) ==> Undriven(s, front + back)
    decreases front
  {
    hide Next;
    RunsCompose(Free, s, front, back);
    if front == [] {
      assert front + back == back;
    } else {
      CountsCompose(Next(s, front[0]), front[1..], back);
      assert (front + back)[1..] == front[1..] + back;
    }
  }
}
