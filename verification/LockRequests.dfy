/** When the last request wins under the prompt schedule, decided in the state it is accepted in. */
module LockRequests {
  import opened LockModel
  import opened LockTermination
  import opened LockHistory

  /** Without any further request, the prompt schedule brings the lock to rest there. */
  predicate RestsAt(s: Lock, steps: seq<Step>, status: Status) {
    && Run(Prompt, s, steps) && Run(Free, s, steps) && Externals(steps) == 0
    && Quiescent(Final(s, steps)) && Final(s, steps).status == status
  }

  // ---------------------------------------------------------------- opening cannot be undone

  /** The command the lock will have obeyed once the timer callback and the queue are empty. */
  function Aim(s: Lock): Command {
    if s.callback.Some? then s.callback.value else Target(s)
  }

  lemma OpeningAimStays(s: Lock, step: Step)
    requires Inv(s) && Aim(s) == OpenMotor
    requires Enabled(s, step) && Allowed(Prompt, s, step) && !step.External?
    ensures Aim(Next(s, step)) == OpenMotor
  {
    if step.Receive? {
      ProcessKeepsInv(s.(queue := s.queue[1..]), s.queue[0]);
    }
  }

  lemma {:induction false} OpeningAimWins(s: Lock, steps: seq<Step>)
    requires Inv(s) && Aim(s) == OpenMotor
    requires Run(Prompt, s, steps) && Run(Free, s, steps) && Externals(steps) == 0 && Quiescent(Final(s, steps))
    ensures Final(s, steps).status == Opened
    decreases steps
  {
    hide Next;
    if steps == [] {
    } else {
      StepKeepsInv(s, steps[0]);
      OpeningAimStays(s, steps[0]);
      OpeningAimWins(Next(s, steps[0]), steps[1..]);
    }
  }

  // ---------------------------------------------------------------- closing can be overtaken

  /** The worker, left to itself, comes to a hold with the timer still armed before the queue is
      empty. */
  predicate TimerCatches(s: Lock)
    decreases |s.queue|, s.holding
  {
    if s.holding then (s.armed && s.queue != []) || TimerCatches(Next(s, Resume))
    else if s.queue == [] then false
    else QueueShrinks(s); TimerCatches(Next(s, Receive))
  }

  lemma QueueShrinks(s: Lock)
    requires Enabled(s, Receive)
    ensures |Next(s, Receive).queue| < |s.queue|
  {
  }

  /** The close request is still waiting behind everything else, and will not be overtaken; or it has
      been taken, and only its own timer entries are left. */
  predicate CloseIsSafe(s: Lock) {
    || (s.callback.None? && s.queue != [] && s.queue[|s.queue| - 1] == CloseMotor && !TimerCatches(s))
    || (&& s.command == CloseMotor && !s.holding
        && (s.callback.Some? ==> s.callback.value == CloseMotor)
        && forall i :: 0 <= i < |s.queue| ==> s.queue[i] == CloseMotor)
  }

  lemma SafeStays(s: Lock, step: Step)
    requires Inv(s) && CloseIsSafe(s)
    requires Enabled(s, step) && Allowed(Prompt, s, step) && !step.External?
    ensures CloseIsSafe(Next(s, step))
  {
    hide TimerCatches;
    CatchUnfolds(s);
    if step.Receive? {
      ProcessKeepsInv(s.(queue := s.queue[1..]), s.queue[0]);
    }
  }

  lemma CatchUnfolds(s: Lock)
    ensures s.holding ==> (TimerCatches(s) <==> (s.armed && s.queue != []) || TimerCatches(Next(s, Resume)))
    ensures !s.holding && s.queue != [] ==> (TimerCatches(s) <==> TimerCatches(Next(s, Receive)))
  {
    hide Next;
  }

  lemma {:induction false} SafeCloseWins(s: Lock, steps: seq<Step>)
    requires Inv(s) && CloseIsSafe(s)
    requires Run(Prompt, s, steps) && Run(Free, s, steps) && Externals(steps) == 0 && Quiescent(Final(s, steps))
    ensures Final(s, steps).status == Closed
    decreases steps
  {
    hide Next, TimerCatches;
    if steps == [] {
    } else {
      StepKeepsInv(s, steps[0]);
      SafeStays(s, steps[0]);
      SafeCloseWins(Next(s, steps[0]), steps[1..]);
    }
  }

  /** Where the timer catches a close request, it fires in the hold and so queues an open command
      behind it. */
  lemma {:induction false} CaughtCloseLoses(s: Lock) returns (steps: seq<Step>)
    requires PromptInv(s) && s.callback.None? && TimerCatches(s)
    ensures RestsAt(s, steps, Opened)
    decreases |s.queue|, s.holding
  {
    hide Next, TimerCatches;
    CatchUnfolds(s);
    NothingToCatch(s);
    if s.holding && s.armed && s.queue != [] {
      FiresInHold(s);
      var rest := ComesToRest(Prompt, Next(s, Fire));
      OpeningAimWins(Next(s, Fire), rest);
      steps := [Fire] + rest;
      assert steps[1..] == rest;
    } else {
      var step := if s.holding then Resume else Receive;
      PromptStep(s, step);
      WorkerLeavesCallback(s, step);
      var rest := CaughtCloseLoses(Next(s, step));
      steps := [step] + rest;
      assert steps[1..] == rest;
    }
  }

  lemma NothingToCatch(s: Lock)
    ensures !s.holding && s.queue == [] ==> !TimerCatches(s)
  {
  }

  lemma FiresInHold(s: Lock)
    requires PromptInv(s) && s.holding && s.armed && s.callback.None?
    ensures Enabled(s, Fire) && Allowed(Prompt, s, Fire)
    ensures PromptInv(Next(s, Fire)) && Inv(Next(s, Fire)) && Aim(Next(s, Fire)) == OpenMotor
  {
    PromptStep(s, Fire);
  }

  lemma WorkerLeavesCallback(s: Lock, step: Step)
    requires Enabled(s, step) && (step.Receive? || step.Resume?)
    ensures var next := Next(s, step);
      next.callback == s.callback && |next.queue| <= |s.queue| &&
      (if step.Receive? then |next.queue| < |s.queue| else s.holding && !next.holding)
  {
  }

  // ---------------------------------------------------------------- main result

  /** A request accepted under the prompt schedule with none after it. An open request always wins. A
      close request can lose if and only if taking the queued commands in order comes to a hold with
      the timer armed while the request still waits; otherwise it always wins. */
  lemma LastRequestDecided(s: Lock, c: Command)
    requires PromptInv(s) && Enabled(s, External(c)) && Allowed(Prompt, s, External(c))
    ensures var accepted := Next(s, External(c));
      && (c == OpenMotor ==> forall steps :: !RestsAt(accepted, steps, Closed))
      && (c == CloseMotor ==> ((exists steps :: RestsAt(accepted, steps, Opened)) <==> TimerCatches(accepted)))
    ensures exists steps :: RestsAt(Next(s, External(c)), steps, Opened) || RestsAt(Next(s, External(c)), steps, Closed)
  {
    hide Next, RestsAt, TimerCatches;
    var accepted := Next(s, External(c));
    AcceptedLast(s, c);
    if c == OpenMotor {
      forall steps ensures !RestsAt(accepted, steps, Closed) {
        NeverClosed(accepted, steps);
      }
    } else if TimerCatches(accepted) {
      var steps := CaughtCloseLoses(accepted);
    } else {
      forall steps ensures !RestsAt(accepted, steps, Opened) {
        NeverOpened(accepted, steps);
      }
    }
    var steps := ComesToRest(Prompt, accepted);
    RestsSomewhere(accepted, steps);
  }

  lemma AcceptedLast(s: Lock, c: Command)
    requires PromptInv(s) && Enabled(s, External(c)) && Allowed(Prompt, s, External(c))
    ensures var accepted := Next(s, External(c));
      PromptInv(accepted) && accepted.callback.None? && Aim(accepted) == c && accepted.queue != [] &&
      accepted.queue[|accepted.queue| - 1] == c
  {
    PromptStep(s, External(c));
  }

  lemma NeverClosed(s: Lock, steps: seq<Step>)
    requires Inv(s) && Aim(s) == OpenMotor
    ensures !RestsAt(s, steps, Closed)
  {
    if RestsAt(s, steps, Closed) {
      OpeningAimWins(s, steps);
    }
  }

  lemma NeverOpened(s: Lock, steps: seq<Step>)
    requires Inv(s) && s.callback.None? && s.queue != [] && s.queue[|s.queue| - 1] == CloseMotor && !TimerCatches(s)
    ensures !RestsAt(s, steps, Opened)
  {
    hide TimerCatches;
    if RestsAt(s, steps, Opened) {
      SafeCloseWins(s, steps);
    }
  }

  lemma RestsSomewhere(s: Lock, steps: seq<Step>)
    requires Run(Prompt, s, steps) && Run(Free, s, steps) && Externals(steps) == 0 && Quiescent(Final(s, steps))
    requires Final(s, steps).status == Opened || Final(s, steps).status == Closed
    ensures RestsAt(s, steps, Opened) || RestsAt(s, steps, Closed)
  {
  }
}
