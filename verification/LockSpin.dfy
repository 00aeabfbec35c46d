/** When the lock comes to rest under the free schedule, decided in the state in which it is left
    alone. */
module LockSpin {
  import opened Options
  import opened LockDrive
  import opened LockModel
  import opened LockTermination

  // ---------------------------------------------------------------- commands on their way

  /** The command is queued, about to be queued by the callback, or will be read by the timer. */
  predicate OnTheWay(s: Lock, c: Command) {
    c in s.queue || s.callback == Some(c) || ((s.armed || s.holding) && s.command == c)
  }

  predicate BothOnTheWay(s: Lock) {
    OnTheWay(s, OpenMotor) && OnTheWay(s, CloseMotor)
  }

  /** The timer can neither fire nor deliver. */
  predicate TimerStuck(s: Lock) {
    s.callback.Some? && |s.queue| == QUEUE_SIZE
  }

  /** An open and a close command are on their way and can stay so: they are now, if the timer can
      still save the current command; otherwise they are once the next command has been taken, which
      can complete the ramp or turn the lock around under an armed timer, and so lose the last one of
      its kind. */
  predicate CanSpin(s: Lock)
    decreases s.holding
  {
    if s.holding then CanSpin(Next(s, Resume))
    else if s.armed && !TimerStuck(s) then BothOnTheWay(s)
    else s.queue != [] && BothOnTheWay(Next(s, Receive))
  }

  lemma ResumeKeepsCommands(s: Lock, c: Command)
    requires Inv(s) && s.holding
    ensures var next := Next(s, Resume);
      OnTheWay(next, c) == OnTheWay(s, c) && next.armed && !next.holding && TimerStuck(next) == TimerStuck(s)
  {
  }

  /** What becomes of the timer when the worker takes a command: it is armed, or a hold will arm it,
      unless the command completes the ramp. */
  lemma ReceiveMoves(s: Lock)
    requires Inv(s) && Enabled(s, Receive)
    ensures var next, c := Next(s, Receive), s.queue[0];
      && Inv(next) && MotorCommand(c)
      && next.queue == s.queue[1..] && next.callback == s.callback && next.command == c
      && (s.armed ==> next.armed)
      && (next.armed || next.holding || (Moving(s) && c == s.command && !Moving(next)))
  {
    StepKeepsInv(s, Receive);
    var r := s.(queue := s.queue[1..]);
    assert MotorCommand(s.queue[0]);
    ProcessKeepsInv(r, s.queue[0]);
  }

  lemma Queued(s: Lock, c: Command)
    requires s.queue != []
    ensures c in s.queue <==> c == s.queue[0] || c in s.queue[1..]
  {
    assert s.queue == [s.queue[0]] + s.queue[1..];
  }

  /** A command taken from the queue stays on its way exactly if the timer is to read it, or if there
      is another one of its kind. */
  lemma ReceiveMovesCommands(s: Lock, c: Command)
    requires Inv(s) && Enabled(s, Receive)
    ensures var next := Next(s, Receive);
      && (OnTheWay(next, c) ==> OnTheWay(s, c))
      && (OnTheWay(s, c) && !OnTheWay(next, c) ==>
            (s.queue[0] == c && !next.armed && !next.holding) || (s.queue[0] != c && s.command == c && s.armed))
  {
    hide Next, Inv;
    ReceiveMoves(s);
    Queued(s, c);
  }

  // ---------------------------------------------------------------- spinning goes on

  lemma FireSpins(s: Lock)
    requires Inv(s) && BothOnTheWay(s) && !s.holding && Enabled(s, Fire)
    ensures CanSpin(Next(s, Fire))
  {
    hide Process;
    var fired := Next(s, Fire);
    StepKeepsInv(s, Fire);
    assert fired.queue != [];
    ReceiveMoves(fired);
    ReceiveMovesCommands(fired, OpenMotor);
    ReceiveMovesCommands(fired, CloseMotor);
  }

  lemma DeliverSpins(s: Lock)
    requires Inv(s) && BothOnTheWay(s) && !s.holding && s.armed && Enabled(s, Deliver)
    ensures CanSpin(Next(s, Deliver))
  {
    var delivered := Next(s, Deliver);
    assert delivered.queue[|s.queue|] == s.callback.value;
    assert forall c :: c in s.queue ==> c in delivered.queue;
  }

  lemma ReceiveSpins(s: Lock)
    requires Inv(s) && Enabled(s, Receive) && BothOnTheWay(Next(s, Receive))
    ensures CanSpin(Next(s, Receive))
  {
    hide Process;
    var next := Next(s, Receive);
    ReceiveMoves(s);
    if next.holding {
      ResumeKeepsCommands(next, OpenMotor);
      ResumeKeepsCommands(next, CloseMotor);
    } else if !next.armed {
      assert next.queue != [];
      ReceiveMoves(next);
      ReceiveMovesCommands(next, OpenMotor);
      ReceiveMovesCommands(next, CloseMotor);
    }
  }

  lemma SpinGoesOn(s: Lock) returns (step: Step)
    requires Inv(s) && CanSpin(s)
    ensures !step.External? && Enabled(s, step) && CanSpin(Next(s, step))
  {
    hide BothOnTheWay, Next;
    if s.holding {
      step := Resume;
    } else if s.armed && !TimerStuck(s) {
      if s.callback.None? {
        step := Fire;
        FireSpins(s);
      } else {
        step := Deliver;
        assert |s.queue| <= QUEUE_SIZE;
        DeliverSpins(s);
      }
    } else {
      step := Receive;
      ReceiveSpins(s);
    }
  }

  /** A run of the free schedule without any request. */
  predicate LeftAlone(s: Lock, steps: seq<Step>) {
    Run(Free, s, steps) && Externals(steps) == 0
  }

  lemma {:induction false} SpinsForever(s: Lock, length: nat) returns (steps: seq<Step>)
    requires Inv(s) && CanSpin(s)
    ensures LeftAlone(s, steps) && |steps| == length
    decreases length
  {
    hide Next, CanSpin;
    if length == 0 {
      steps := [];
    } else {
      var step := SpinGoesOn(s);
      StepKeepsInv(s, step);
      var rest := SpinsForever(Next(s, step), length - 1);
      steps := [step] + rest;
      assert steps[1..] == rest;
    }
  }

  // ---------------------------------------------------------------- otherwise it ends

  /** All commands on their way are of one kind, which a moving lock already follows. */
  predicate Steady(s: Lock) {
    !BothOnTheWay(s) && (Moving(s) ==> forall c :: MotorCommand(c) && OnTheWay(s, c) ==> c == s.command)
  }

  lemma CommandsOnlyLeave(s: Lock, step: Step, c: Command)
    requires Inv(s) && Enabled(s, step) && !step.External? && OnTheWay(Next(s, step), c)
    ensures OnTheWay(s, c)
  {
    hide Process;
    match step {
      case Receive => ReceiveMovesCommands(s, c);
      case _ =>
    }
  }

  lemma OneKindStays(s: Lock, step: Step)
    requires Inv(s) && Enabled(s, step) && !step.External? && !BothOnTheWay(s)
    ensures !BothOnTheWay(Next(s, step))
  {
    hide Next, OnTheWay;
    if BothOnTheWay(Next(s, step)) {
      CommandsOnlyLeave(s, step, OpenMotor);
      CommandsOnlyLeave(s, step, CloseMotor);
    }
  }

  lemma SteadyStays(s: Lock, step: Step)
    requires Inv(s) && Enabled(s, step) && !step.External? && Steady(s)
    ensures Steady(Next(s, step)) && !StaleReversal(s, step)
  {
    OneKindStays(s, step);
    var next := Next(s, step);
    forall c | MotorCommand(c) && OnTheWay(next, c) ensures Moving(next) ==> c == next.command {
      CommandsOnlyLeave(s, step, c);
      if step.Receive? {
        ReceiveMoves(s);
        assert OnTheWay(s, s.queue[0]);
      }
    }
    assert step.Receive? ==> MotorCommand(s.queue[0]) && OnTheWay(s, s.queue[0]);
  }

  lemma {:induction false} SpinNeedsBoth(s: Lock)
    requires Inv(s) && CanSpin(s)
    ensures BothOnTheWay(s)
    decreases s.holding
  {
    hide Process;
    if s.holding {
      StepKeepsInv(s, Resume);
      SpinNeedsBoth(Next(s, Resume));
      ResumeKeepsCommands(s, OpenMotor);
      ResumeKeepsCommands(s, CloseMotor);
    } else if s.armed && !TimerStuck(s) {
    } else {
      ReceiveMovesCommands(s, OpenMotor);
      ReceiveMovesCommands(s, CloseMotor);
    }
  }

  /** Neither queue nor callback matters to what a command does. */
  lemma ProcessIgnoresRest(s: Lock, c: Command, queue: seq<Command>, callback: Option<Command>)
    ensures Process(s.(queue := queue, callback := callback), c) ==
            Process(s, c).(queue := queue, callback := callback)
  {
    hide U8, Driven;
  }

  /** So delivering does not change what the next command taken does. */
  lemma DeliverCommutes(s: Lock)
    requires Inv(s) && Enabled(s, Deliver) && !s.holding && s.queue != []
    requires BothOnTheWay(Next(Next(s, Deliver), Receive))
    ensures BothOnTheWay(Next(s, Receive))
  {
    hide Process;
    var x := s.callback.value;
    var rest := s.queue[1..];
    assert (s.queue + [x])[1..] == rest + [x] && (s.queue + [x])[0] == s.queue[0];
    ProcessIgnoresRest(s, s.queue[0], rest, s.callback);
    ProcessIgnoresRest(s, s.queue[0], rest + [x], None);
    assert forall c :: c in rest + [x] <==> c in rest || c == x;
  }

  lemma LoneKindStays(s: Lock, step: Step)
    requires Inv(s) && Enabled(s, step) && !step.External? && !BothOnTheWay(s)
    ensures !CanSpin(Next(s, step))
    ensures StaleReversal(s, step) ==> Steady(Next(s, step))
  {
    hide Next, CanSpin;
    var next := Next(s, step);
    StepKeepsInv(s, step);
    OneKindStays(s, step);
    if CanSpin(next) {
      SpinNeedsBoth(next);
    }
    if StaleReversal(s, step) {
      ReceiveMoves(s);
      assert OnTheWay(s, s.queue[0]);
      forall c | MotorCommand(c) && OnTheWay(next, c) ensures c == next.command {
        CommandsOnlyLeave(s, step, c);
      }
    }
  }

  /** Both are on their way, but the next command taken loses one of them. */
  lemma LastOfItsKind(s: Lock)
    requires Inv(s) && Enabled(s, Receive) && BothOnTheWay(s) && !BothOnTheWay(Next(s, Receive))
    ensures !CanSpin(Next(s, Receive)) && !StaleReversal(s, Receive)
  {
    hide Next, CanSpin, OnTheWay;
    var next := Next(s, Receive);
    ReceiveMoves(s);
    ReceiveMovesCommands(s, OpenMotor);
    ReceiveMovesCommands(s, CloseMotor);
    if CanSpin(next) {
      SpinNeedsBoth(next);
    }
  }

  lemma BothFillTheQueue(s: Lock)
    requires Inv(s) && BothOnTheWay(s) && !s.holding && (!s.armed || TimerStuck(s))
    ensures s.queue != [] && !Enabled(s, Fire)
  {
  }

  lemma HoldingDecides(s: Lock)
    requires Inv(s) && s.holding && !TimerStuck(s) && BothOnTheWay(s)
    ensures CanSpin(s)
  {
    ResumeKeepsCommands(s, OpenMotor);
    ResumeKeepsCommands(s, CloseMotor);
  }

  lemma CannotSpinStays(s: Lock, step: Step)
    requires Inv(s) && Enabled(s, step) && !step.External? && !CanSpin(s)
    ensures !CanSpin(Next(s, step))
    ensures StaleReversal(s, step) ==> Steady(Next(s, step))
  {
    hide Next, OnTheWay, BothOnTheWay, Steady, Inv;
    if !BothOnTheWay(s) {
      LoneKindStays(s, step);
    } else if s.holding {
      QueueIsBounded(s);
      if !TimerStuck(s) {
        HoldingDecides(s);
      }
    } else {
      BothFillTheQueue(s);
      if step.Deliver? {
        DeliverUnarmed(s);
      } else {
        LastOfItsKind(s);
      }
    }
  }

  lemma QueueIsBounded(s: Lock)
    requires Inv(s)
    ensures |s.queue| <= QUEUE_SIZE
  {
  }

  lemma DeliverUnarmed(s: Lock)
    requires Inv(s) && Enabled(s, Deliver) && !s.holding && s.queue != [] && !CanSpin(s)
    ensures !CanSpin(Next(s, Deliver)) || s.armed
  {
    hide OnTheWay, BothOnTheWay, Process;
    if CanSpin(Next(s, Deliver)) && !s.armed {
      DeliverCommutes(s);
    }
  }

  lemma {:induction false} FewStaleReversals(s: Lock, steps: seq<Step>)
    requires Inv(s) && !CanSpin(s) && LeftAlone(s, steps)
    ensures StaleReversals(s, steps) <= if Steady(s) then 0 else 1
    decreases steps
  {
    hide Next, CanSpin, Steady;
    if steps == [] {
    } else {
      StepKeepsInv(s, steps[0]);
      CannotSpinStays(s, steps[0]);
      if Steady(s) {
        SteadyStays(s, steps[0]);
      }
      FewStaleReversals(Next(s, steps[0]), steps[1..]);
    }
  }

  // ---------------------------------------------------------------- main result

  ghost predicate Bounded(s: Lock, bound: nat) {
    forall steps :: LeftAlone(s, steps) ==> |steps| <= bound
  }

  /** Left alone under the free schedule, the lock is bound to come to rest if and only if it cannot
      spin in the state it is left in; and then within its potential and 45 steps. */
  lemma ComesToRestIffCannotSpin(s: Lock)
    requires Inv(s)
    ensures (exists bound: nat :: Bounded(s, bound)) <==> !CanSpin(s)
    ensures !CanSpin(s) ==> Bounded(s, Potential(s) + 45)
    ensures CanSpin(s) ==> BothOnTheWay(s)
  {
    hide Next, CanSpin, LeftAlone, BothOnTheWay;
    if CanSpin(s) {
      SpinNeedsBoth(s);
      forall bound: nat ensures !Bounded(s, bound) {
        var steps := SpinsForever(s, bound + 1);
      }
    } else {
      forall steps | LeftAlone(s, steps) ensures |steps| <= Potential(s) + 45 {
        FewStaleReversals(s, steps);
        ShortRun(s, steps);
      }
      assert Bounded(s, Potential(s) + 45);
    }
  }

  lemma ShortRun(s: Lock, steps: seq<Step>)
    requires Inv(s) && LeftAlone(s, steps) && StaleReversals(s, steps) <= 1
    ensures |steps| <= Potential(s) + 45
  {
    LengthOfAnyRun(s, steps);
  }
}
