/** How a movement runs along its ramp: which speeds and duties it goes through, step by step and over
    whole runs. */
module LockRamp {
  import opened LockDrive
  import opened LockModel

  /** One stage of a ramp: the speed, the increment for the next stage, and the duty on the channel. */
  datatype Stage = Stage(speed: nat, increment: int, duty: nat)

  const CLOSING_RAMP := [
    Stage(20, 20, 1638), Stage(40, 20, 3276), Stage(60, -20, 4914), Stage(40, -20, 3276), Stage(20, -20, 1638)]

  const OPENING_RAMP := [
    Stage(20, 20, 1638), Stage(40, 20, 3276), Stage(60, -10, 4914), Stage(50, -10, 4095),
    Stage(40, -10, 3276), Stage(30, -10, 2457), Stage(20, -10, 1638), Stage(10, -10, 819)]

  function Ramp(status: Status): seq<Stage> {
    if status == Opening then OPENING_RAMP else if status == Closing then CLOSING_RAMP else []
  }

  predicate AtStage(s: Lock, i: nat) {
    i < |Ramp(s.status)| && s.speed == Ramp(s.status)[i].speed && s.increment == Ramp(s.status)[i].increment
  }

  /** The channel of the direction of travel has the duty, the other one is off. */
  predicate DrivenAt(s: Lock, duty: nat) {
    s.pwm == (if s.status == Opening then Channels(duty, 0) else Channels(0, duty))
  }

  /** A moving lock is at exactly one stage of its ramp. */
  lemma MovingIsAtStage(s: Lock) returns (i: nat)
    requires Inv(s) && Moving(s)
    ensures AtStage(s, i) && forall j: nat :: AtStage(s, j) ==> j == i
  {
    i :=
      if s.status == Closing then
        (if s.increment == 20 then (if s.speed == 20 then 0 else 1)
         else if s.speed == 60 then 2 else if s.speed == 40 then 3 else 4)
      else
        (if s.increment == 20 then (if s.speed == 20 then 0 else 1)
         else 8 - s.speed / 10);
  }

  /** A command in the direction of travel drives the channel at the next stage and arms the timer; in
      the last stage of an opening the hold comes first; after the last stage the lock is at rest with
      both channels off, and not before. */
  lemma CommandMovesOn(s: Lock, i: nat)
    requires Inv(s) && Moving(s) && Enabled(s, Receive) && s.queue[0] == s.command && AtStage(s, i)
    ensures var t := Next(s, Receive);
      && (Moving(t) <==> i + 1 < |Ramp(s.status)|)
      && (Moving(t) ==> t.status == s.status && AtStage(t, i + 1))
      && (Moving(t) && t.speed > 10 ==> DrivenAt(t, Ramp(s.status)[i + 1].duty) && t.armed && !t.holding)
      && (Moving(t) && t.speed <= 10 ==> t.holding && t.pwm == s.pwm && t.armed == s.armed)
      && (!Moving(t) ==> t.pwm == OFF && t.armed == s.armed && t.speed == 20 &&
                         t.status == if s.status == Opening then Opened else Closed)
  {
    if s.status == Opening {
      assert Next(s, Receive) == AdvanceOpening(s.(queue := s.queue[1..]));
    } else {
      assert Next(s, Receive) == AdvanceClosing(s.(queue := s.queue[1..]));
    }
  }

  /** After the hold the last stage of an opening is driven. */
  lemma HoldEndsAtLastStage(s: Lock)
    requires Inv(s) && s.holding
    ensures AtStage(s, 7)
    ensures var t := Next(s, Resume); AtStage(t, 7) && DrivenAt(t, 819) && t.armed && !t.holding
  {
  }

  /** A command at rest starts the first stage; one against the direction of travel stops both channels
      and goes to the first stage of the other ramp without driving it. */
  lemma CommandTurnsAround(s: Lock)
    requires Inv(s) && Enabled(s, Receive) && (Moving(s) ==> s.queue[0] != s.command)
    ensures var t, c := Next(s, Receive), s.queue[0];
      && t.status == (if c == OpenMotor then Opening else Closing)
      && t.direction == (if c == OpenMotor then Forward else Reverse)
      && AtStage(t, 0) && t.armed && !t.holding && t.command == c
      && (if Moving(s) then t.pwm == OFF else DrivenAt(t, 1638))
  {
    assert MotorCommand(s.queue[0]);
  }

  // ---------------------------------------------------------------- whole movements

  /** The stages a movement went through since it was entered. */
  datatype Journey = Journey(lock: Lock, stages: seq<(nat, int)>)

  /** The observer follows a step and never influences it. */
  function Travel(j: Journey, step: Step): (next: Journey)
    requires Enabled(j.lock, step)
    ensures next.lock == Next(j.lock, step)
  {
    var t := Next(j.lock, step);
    if !step.Receive? || !Moving(t) then j.(lock := t)
    else if t.status != j.lock.status then Journey(t, [(t.speed, t.increment)])
    else Journey(t, j.stages + [(t.speed, t.increment)])
  }

  function Travelled(j: Journey, steps: seq<Step>): (end: Journey)
    requires Run(Free, j.lock, steps)
    ensures end.lock == Final(j.lock, steps)
    decreases steps
  {
    if steps == [] then j else Travelled(Travel(j, steps[0]), steps[1..])
  }

  function Places(ramp: seq<Stage>, n: nat): seq<(nat, int)>
    requires n <= |ramp|
  {
    seq(n, i requires 0 <= i < n => (ramp[i].speed, ramp[i].increment))
  }

  ghost predicate JourneyInv(j: Journey) {
    && Inv(j.lock)
    && (Moving(j.lock) ==> exists i: nat :: OnCourse(j, i))
  }

  /** The lock is at stage i and has been at each stage before it. */
  predicate OnCourse(j: Journey, i: nat) {
    AtStage(j.lock, i) && j.stages == Places(Ramp(j.lock.status), i + 1)
  }

  lemma ReceiveKeepsJourney(j: Journey)
    requires JourneyInv(j) && Enabled(j.lock, Receive)
    ensures JourneyInv(Travel(j, Receive))
    ensures var t := Next(j.lock, Receive); Moving(j.lock) && !Moving(t) ==>
              j.stages == Places(Ramp(j.lock.status), |Ramp(j.lock.status)|)
  {
    hide Process, AtStage, DrivenAt, Ramp;
    var s := j.lock;
    StepKeepsInv(s, Receive);
    var next := Travel(j, Receive);
    if Moving(s) && s.queue[0] == s.command {
      var i: nat :| OnCourse(j, i);
      CommandMovesOn(s, i);
      StageIsOnRamp(s, i);
      if Moving(next.lock) {
        assert OnCourse(next, i + 1);
      }
    } else {
      CommandTurnsAround(s);
      StageIsOnRamp(next.lock, 0);
      StatusTurns(s);
      assert OnCourse(next, 0);
    }
  }

  lemma StageIsOnRamp(s: Lock, i: nat)
    requires AtStage(s, i)
    ensures i < |Ramp(s.status)| && Ramp(s.status)[i].speed == s.speed && Ramp(s.status)[i].increment == s.increment
  {
  }

  lemma StatusTurns(s: Lock)
    requires Inv(s) && Enabled(s, Receive) && (Moving(s) ==> s.queue[0] != s.command)
    ensures Moving(Next(s, Receive)) && Next(s, Receive).status != s.status
  {
    hide AtStage, DrivenAt;
    assert MotorCommand(s.queue[0]);
    CommandTurnsAround(s);
  }

  lemma OtherStepKeepsStage(s: Lock, step: Step, i: nat)
    requires Inv(s) && Enabled(s, step) && !step.Receive? && AtStage(s, i)
    ensures AtStage(Next(s, step), i) && Next(s, step).status == s.status
  {
  }

  lemma OtherStepKeepsStatus(s: Lock, step: Step)
    requires Enabled(s, step) && !step.Receive?
    ensures Next(s, step).status == s.status
  {
  }

  lemma StepKeepsJourney(j: Journey, step: Step)
    requires JourneyInv(j) && Enabled(j.lock, step)
    ensures JourneyInv(Travel(j, step))
  {
    hide Next, AtStage, Ramp;
    if step.Receive? {
      ReceiveKeepsJourney(j);
    } else {
      StepKeepsInv(j.lock, step);
      OtherStepKeepsStatus(j.lock, step);
      if Moving(j.lock) {
        var i: nat :| OnCourse(j, i);
        OtherStepKeepsStage(j.lock, step, i);
        assert OnCourse(Travel(j, step), i);
      }
    }
  }

  lemma {:induction false} RunKeepsJourney(j: Journey, steps: seq<Step>)
    requires JourneyInv(j) && Run(Free, j.lock, steps)
    ensures JourneyInv(Travelled(j, steps))
    decreases steps
  {
    hide Next, JourneyInv;
    if steps == [] {
    } else {
      StepKeepsJourney(j, steps[0]);
      RunKeepsJourney(Travel(j, steps[0]), steps[1..]);
    }
  }

  /** Under every schedule a movement that comes to rest has gone through every stage of its ramp, in
      order and once each, since it was entered: nothing skips a stage and nothing ends it early. */
  lemma CompletedMovementWentThrough(steps: seq<Step>, step: Step)
    requires Run(Free, BOOT, steps) && Enabled(Final(BOOT, steps), step)
    ensures var before, stages := Final(BOOT, steps), Travelled(Journey(BOOT, []), steps).stages;
      && (before.status == Closing && !Moving(Next(before, step)) ==>
            stages == [(20, 20), (40, 20), (60, -20), (40, -20), (20, -20)] && Next(before, step).status == Closed)
      && (before.status == Opening && !Moving(Next(before, step)) ==>
            stages == [(20, 20), (40, 20), (60, -10), (50, -10), (40, -10), (30, -10), (20, -10), (10, -10)] &&
            Next(before, step).status == Opened)
  {
    hide Process, JourneyInv;
    var start := Journey(BOOT, []);
    BootIsNotMoving();
    RunKeepsJourney(start, steps);
    var j := Travelled(start, steps);
    JourneyIsOk(j);
    if Moving(j.lock) && !Moving(Next(j.lock, step)) {
      if step.Receive? {
        ReceiveKeepsJourney(j);
        CompletionIsAtRest(j.lock);
      } else {
        OtherStepKeepsStatus(j.lock, step);
      }
    }
  }

  lemma BootIsNotMoving()
    ensures JourneyInv(Journey(BOOT, []))
  {
  }

  lemma JourneyIsOk(j: Journey)
    requires JourneyInv(j)
    ensures Inv(j.lock)
  {
  }

  lemma CompletionIsAtRest(s: Lock)
    requires Inv(s) && Moving(s) && Enabled(s, Receive) && !Moving(Next(s, Receive))
    ensures Next(s, Receive).status == if s.status == Opening then Opened else Closed
  {
    hide Process, AtStage;
    if s.queue[0] == s.command {
      var i := MovingIsAtStage(s);
      CommandMovesOn(s, i);
    } else {
      StatusTurns(s);
    }
  }

  // ---------------------------------------------------------------- the queue

  function Asking(commands: seq<Command>): seq<Step> {
    seq(|commands|, i requires 0 <= i < |commands| => External(commands[i]))
  }

  /** While the worker is busy, exactly as many requests are accepted as there are free places among
      ten, and they stand in the queue in the order they were made. */
  lemma {:induction false} TenRequestsFit(s: Lock, commands: seq<Command>)
    requires forall i :: 0 <= i < |commands| ==> MotorCommand(commands[i])
    requires |s.queue| <= 10
    ensures Run(Free, s, Asking(commands)) <==> |s.queue| + |commands| <= 10
    ensures Run(Free, s, Asking(commands)) ==> Final(s, Asking(commands)) == s.(queue := s.queue + commands)
    decreases commands
  {
    if commands == [] {
      assert s.queue + [] == s.queue;
    } else {
      var c, rest := commands[0], commands[1..];
      assert Asking(commands)[0] == External(c) && Asking(commands)[1..] == Asking(rest);
      if |s.queue| < 10 {
        TenRequestsFit(s.(queue := s.queue + [c]), rest);
        assert s.queue + [c] + rest == s.queue + commands;
      }
    }
  }
}
