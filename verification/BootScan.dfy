/** The scan for the home node at boot: discovery, its completion event and the delegated job that
    moves to the next channel hand one token around. */
module BootScan {
  import opened Options
  import opened Versions

  const MAX_WIFI_CHANNEL := 13
  const DELEGATE_QUEUE_LENGTH := 4
  const DELEGATE_ARG_MAX_SIZE := 32
  const FIRST_CHANNEL := 1

  datatype Function = RestartDiscoveryOnNewChannel | RestartWifiApsta

  /** A delegated job holds a copy of its argument bytes. */
  datatype Job = Job(func: Function, arg: seq<byte>)

  /** `channel` is the handler's static counter; `discovering` counts running discoveries; `events`
      are completion events with the number of devices found; `requested` are all channels the radio
      was asked for; `failures` counts the empty results handled; `ready` is the signal the main
      function waits for. */
  datatype Scan = Scan(
    channel: byte,
    discovering: nat,
    events: seq<byte>,
    jobs: seq<Job>,
    running: Option<Job>,
    radio: byte,
    requested: seq<byte>,
    softap: Option<byte>,
    failures: nat,
    ready: bool)

  /** The station starts on channel 1, and the main function starts one discovery. */
  const SCAN_BOOT := Scan(0, 1, [], [], None, FIRST_CHANNEL, [], None, 0, false)

  datatype Step = Finish(found: byte) | Handle | TakeJob | RunJob

  function Posted(s: Scan, job: Job): Scan {
    if |job.arg| > DELEGATE_ARG_MAX_SIZE then s else s.(jobs := s.jobs + [job])
  }

  /** The counter after one more failure, in a byte. */
  function NextChannel(channel: byte): byte {
    var c := (channel + 1) % 256;
    if c > MAX_WIFI_CHANNEL then 1 else c
  }

  function HandledEvent(s: Scan, found: byte): Scan {
    if found == 0 then
      var c := NextChannel(s.channel);
      Posted(s.(channel := c, failures := s.failures + 1), Job(RestartDiscoveryOnNewChannel, [c]))
    else Posted(s, Job(RestartWifiApsta, [s.channel]))
  }

  /** A job with an argument of the wrong size returns at once. */
  function JobRun(s: Scan, job: Job): Scan {
    if |job.arg| != 1 then s
    else
      match job.func
      case RestartDiscoveryOnNewChannel =>
        s.(radio := job.arg[0], requested := s.requested + [job.arg[0]], discovering := s.discovering + 1)
      case RestartWifiApsta =>
        s.(softap := Some(job.arg[0]), ready := true)
  }

  predicate Enabled(s: Scan, step: Step) {
    match step
    case Finish(_) => s.discovering > 0
    case Handle => s.events != [] && |s.jobs| < DELEGATE_QUEUE_LENGTH
    case TakeJob => s.running.None? && s.jobs != []
    case RunJob => s.running.Some?
  }

  function Next(s: Scan, step: Step): Scan
    requires Enabled(s, step)
  {
    match step
    case Finish(found) => s.(discovering := s.discovering - 1, events := s.events + [found])
    case Handle => HandledEvent(s.(events := s.events[1..]), s.events[0])
    case TakeJob => s.(running := Some(s.jobs[0]), jobs := s.jobs[1..])
    case RunJob => JobRun(s.(running := None), s.running.value)
  }

  predicate Run(s: Scan, steps: seq<Step>)
    decreases steps
  {
    steps == [] || (Enabled(s, steps[0]) && Run(Next(s, steps[0]), steps[1..]))
  }

  function Final(s: Scan, steps: seq<Step>): Scan
    requires Run(s, steps)
    decreases steps
  {
    if steps == [] then s else Final(Next(s, steps[0]), steps[1..])
  }

  // ---------------------------------------------------------------- what every step keeps

  /** What carries the scan on: discoveries, completion events and jobs; and the signal that ends it. */
  function Carriers(s: Scan): nat {
    s.discovering + |s.events| + |s.jobs| + Count(s.running.Some?) + Count(s.ready)
  }

  /** The channel that the k-th failure moves to, counted from one. */
  function ChannelOf(k: nat): byte
    requires k >= 1
  {
    (k - 1) % MAX_WIFI_CHANNEL + 1
  }

  predicate PendingIs(s: Scan, job: Job) {
    s.jobs == [job] || s.running == Some(job)
  }

  predicate ScanInv(s: Scan) {
    && Carriers(s) == 1
    && s.channel == (if s.failures == 0 then 0 else ChannelOf(s.failures))
    && (forall i :: 0 <= i < |s.requested| ==> s.requested[i] == ChannelOf(i + 1))
    && s.radio == (if s.requested == [] then FIRST_CHANNEL else s.requested[|s.requested| - 1])
    && (s.discovering == 0 && s.events == [] && !s.ready ==>
          PendingIs(s, Job(RestartDiscoveryOnNewChannel, [s.channel])) ||
          PendingIs(s, Job(RestartWifiApsta, [s.channel])))
    && |s.requested| + Count(PendingIs(s, Job(RestartDiscoveryOnNewChannel, [s.channel]))) == s.failures
    && s.softap == (if s.ready then Some(s.channel) else None)
  }

  lemma HandleKeepsScan(s: Scan)
    requires ScanInv(s) && Enabled(s, Handle)
    ensures ScanInv(Next(s, Handle))
  {
    assert s.events == [s.events[0]] && s.jobs == [] && s.running.None?;
    if s.events[0] == 0 {
      EmptyKeepsScan(s);
    } else {
      var next := Next(s, Handle);
      assert next.jobs == [Job(RestartWifiApsta, [s.channel])];
      assert !PendingIs(next, Job(RestartDiscoveryOnNewChannel, [s.channel]));
    }
  }

  lemma EmptyKeepsScan(s: Scan)
    requires ScanInv(s) && Enabled(s, Handle) && s.events == [0] && s.jobs == [] && s.running.None?
    ensures ScanInv(Next(s, Handle))
  {
    var next := Next(s, Handle);
    assert next.jobs == [Job(RestartDiscoveryOnNewChannel, [next.channel])] && next.events == [];
    assert !PendingIs(s, Job(RestartDiscoveryOnNewChannel, [s.channel]));
    assert next.channel == ChannelOf(next.failures);
  }

  lemma JobKeepsScan(s: Scan, step: Step)
    requires ScanInv(s) && Enabled(s, step) && (step.TakeJob? || step.RunJob?)
    ensures ScanInv(Next(s, step))
  {
    assert step.TakeJob? ==> s.jobs == [s.jobs[0]] && Next(s, step).jobs == [];
    assert step.RunJob? ==> s.jobs == [] && s.events == [];
  }

  lemma StepKeepsScan(s: Scan, step: Step)
    requires ScanInv(s) && Enabled(s, step)
    ensures ScanInv(Next(s, step))
  {
    match step {
      case Finish(_) => assert s.jobs == [] && s.running.None?;
      case Handle => HandleKeepsScan(s);
      case TakeJob | RunJob => JobKeepsScan(s, step);
    }
  }

  /** Empty results of the discoveries that finished. */
  function Empties(steps: seq<Step>): nat {
    if steps == [] then 0 else Count(steps[0] == Finish(0)) + Empties(steps[1..])
  }

  function EmptyEvents(s: Scan): nat {
    if s.events == [0] then 1 else 0
  }

  lemma {:induction false} RunKeepsScan(s: Scan, steps: seq<Step>)
    requires ScanInv(s) && Run(s, steps)
    ensures ScanInv(Final(s, steps))
    ensures var end := Final(s, steps);
      end.failures + EmptyEvents(end) == s.failures + EmptyEvents(s) + Empties(steps)
    decreases steps
  {
    if steps == [] {
    } else {
      StepKeepsScan(s, steps[0]);
      RunKeepsScan(Next(s, steps[0]), steps[1..]);
    }
  }

  // ---------------------------------------------------------------- main results

  /** Until the main function is let on, there is exactly one running discovery, one pending
      completion event or one delegated job. */
  lemma ExactlyOneToken(steps: seq<Step>)
    requires Run(SCAN_BOOT, steps)
    ensures var s := Final(SCAN_BOOT, steps);
      s.discovering + |s.events| + |s.jobs| + Count(s.running.Some?) == (if s.ready then 0 else 1)
  {
    RunKeepsScan(SCAN_BOOT, steps);
  }

  /** Until the main function is let on, the carrier of the scan can move: a running discovery can end
      with any result, a pending event be handled without waiting for the job queue, and a job be
      taken or run. */
  lemma ScanGoesOn(steps: seq<Step>, found: byte)
    requires Run(SCAN_BOOT, steps) && !Final(SCAN_BOOT, steps).ready
    ensures var s := Final(SCAN_BOOT, steps);
      if s.discovering > 0 then Enabled(s, Finish(found))
      else if s.events != [] then Enabled(s, Handle)
      else if s.jobs != [] then Enabled(s, TakeJob)
      else Enabled(s, RunJob)
  {
    RunKeepsScan(SCAN_BOOT, steps);
  }

  /** When a discovery runs after k empty results, it runs on channel ((k - 1) mod 13) + 1, or on the
      first channel if there was none yet. */
  lemma DiscoveryChannel(steps: seq<Step>)
    requires Run(SCAN_BOOT, steps) && Final(SCAN_BOOT, steps).discovering > 0
    ensures Final(SCAN_BOOT, steps).radio ==
              if Empties(steps) == 0 then FIRST_CHANNEL else (Empties(steps) - 1) % 13 + 1
  {
    RunKeepsScan(SCAN_BOOT, steps);
  }

  /** Any 13 consecutive requests visit each channel exactly once. */
  lemma EveryChannelVisited(steps: seq<Step>, start: nat, channel: byte) returns (at: nat)
    requires Run(SCAN_BOOT, steps) && start + 13 <= |Final(SCAN_BOOT, steps).requested|
    requires 1 <= channel <= 13
    ensures var visits := Final(SCAN_BOOT, steps).requested;
      && start <= at < start + 13 && visits[at] == channel
      && forall j :: start <= j < start + 13 && visits[j] == channel ==> j == at
  {
    RunKeepsScan(SCAN_BOOT, steps);
    var visits := Final(SCAN_BOOT, steps).requested;
    at := PlaceOf(start, channel);
    forall j: nat | start <= j < start + 13 && visits[j] == channel ensures j == at {
      PlaceIsUnique(start, channel, at, j);
    }
  }

  lemma PlaceOf(start: nat, channel: byte) returns (at: nat)
    requires 1 <= channel <= 13
    ensures start <= at < start + 13 && ChannelOf(at + 1) == channel
  {
    at := start + (channel - 1 - start) % 13;
  }

  lemma PlaceIsUnique(start: nat, channel: byte, i: nat, j: nat)
    requires start <= i < start + 13 && start <= j < start + 13
    requires ChannelOf(i + 1) == channel && ChannelOf(j + 1) == channel
    ensures i == j
  {
  }

  /** The access point starts on the channel the radio is on exactly if some channel was found empty
      before; if the very first discovery succeeds, it is given channel 0. */
  lemma AccessPointChannel(steps: seq<Step>)
    requires Run(SCAN_BOOT, steps) && Final(SCAN_BOOT, steps).ready
    ensures var s := Final(SCAN_BOOT, steps);
      && s.softap.Some?
      && (s.softap.value == s.radio <==> Empties(steps) >= 1)
      && (Empties(steps) == 0 ==> s.softap.value == 0 && s.radio == 1)
  {
    RunKeepsScan(SCAN_BOOT, steps);
  }

  /** A first discovery that succeeds. */
  lemma FirstTimeLucky()
    ensures var steps := [Finish(1), Handle, TakeJob, RunJob];
      Run(SCAN_BOOT, steps) && Final(SCAN_BOOT, steps).softap == Some(0) && Final(SCAN_BOOT, steps).radio == 1
  {
    var s1 := Next(SCAN_BOOT, Finish(1));
    var s2 := Next(s1, Handle);
    var s3 := Next(s2, TakeJob);
    var s4 := Next(s3, RunJob);
    assert Run(s3, [RunJob]) && Final(s3, [RunJob]) == s4;
    assert [TakeJob, RunJob][1..] == [RunJob];
    assert Run(s2, [TakeJob, RunJob]) && Final(s2, [TakeJob, RunJob]) == s4;
    assert [Handle, TakeJob, RunJob][1..] == [TakeJob, RunJob];
    assert Run(s1, [Handle, TakeJob, RunJob]) && Final(s1, [Handle, TakeJob, RunJob]) == s4;
    assert [Finish(1), Handle, TakeJob, RunJob][1..] == [Handle, TakeJob, RunJob];
  }

  // ---------------------------------------------------------------- the handlers in place

  /** What the delegate worker's loop makes of the queue once it has finished its current job. */
  function JobsDone(s: Scan): Scan
    requires s.running.None?
    decreases |s.jobs|
  {
    if s.jobs == [] then s else JobsDone(Next(Next(s, TakeJob), RunJob))
  }

  /** Each queued job is taken and run, in order, and nothing else happens. */
  function Rounds(n: nat): (steps: seq<Step>)
    ensures |steps| == 2 * n
  {
    if n == 0 then [] else [TakeJob, RunJob] + Rounds(n - 1)
  }

  lemma JobRunKeepsQueue(s: Scan, job: Job)
    ensures JobRun(s, job).jobs == s.jobs && JobRun(s, job).running == s.running
  {
  }

  /** One round of the delegate loop. */
  lemma RoundUnfolds(s: Scan, rest: seq<Step>)
    requires s.running.None? && s.jobs != []
    ensures Enabled(s, TakeJob) && Enabled(Next(s, TakeJob), RunJob)
    ensures var t := Next(Next(s, TakeJob), RunJob);
      && t.running.None? && t.jobs == s.jobs[1..]
      && (Run(t, rest) ==> Run(s, [TakeJob, RunJob] + rest) && Final(s, [TakeJob, RunJob] + rest) == Final(t, rest))
  {
    hide JobRun;
    var taken := Next(s, TakeJob);
    JobRunKeepsQueue(taken.(running := None), s.jobs[0]);
    assert ([TakeJob, RunJob] + rest)[1..] == [RunJob] + rest;
    assert ([RunJob] + rest)[1..] == rest;
    assert Run(taken, [RunJob] + rest) == Run(Next(taken, RunJob), rest);
  }

  /** What the loop does before it blocks is a run that takes and runs every queued job, first come
      first served, and leaves none. */
  lemma {:induction false} JobsDoneIsARun(s: Scan)
    requires s.running.None?
    ensures Run(s, Rounds(|s.jobs|)) && Final(s, Rounds(|s.jobs|)) == JobsDone(s)
    ensures JobsDone(s).jobs == [] && JobsDone(s).running.None?
    decreases |s.jobs|
  {
    hide Next;
    if s.jobs == [] {
    } else {
      RoundUnfolds(s, Rounds(|s.jobs| - 1));
      JobsDoneIsARun(Next(Next(s, TakeJob), RunJob));
    }
  }

  /** What one job does: one whose argument is not a single byte returns at once, and otherwise the
      channel in it restarts the discovery there or starts the access point. */
  lemma JobEffect(s: Scan, func: Function, arg: seq<byte>)
    ensures var t := JobRun(s, Job(func, arg));
      if |arg| != 1 then t == s
      else if func.RestartWifiApsta? then t == s.(softap := Some(arg[0]), ready := true)
      else t == s.(radio := arg[0], requested := s.requested + arg, discovering := s.discovering + 1)
  {
    assert |arg| == 1 ==> arg == [arg[0]];
  }

  lemma JobRunIgnoresQueue(s: Scan, job: Job, jobs: seq<Job>)
    ensures JobRun(s.(jobs := jobs), job) == JobRun(s, job).(jobs := jobs)
  {
  }

  /** A posted job is run after everything that was queued before it; one whose argument exceeds 32
      bytes is never run. */
  lemma {:induction false} PostedJobRunsLast(s: Scan, func: Function, arg: seq<byte>)
    requires s.running.None?
    ensures JobsDone(Posted(s, Job(func, arg))) ==
              if |arg| <= 32 then JobRun(JobsDone(s), Job(func, arg)) else JobsDone(s)
    decreases |s.jobs|
  {
    hide JobRun;
    var job := Job(func, arg);
    if |arg| > 32 {
    } else if s.jobs == [] {
      var posted := s.(jobs := [job]);
      assert [] + [job] == [job] && [job][1..] == [];
      JobRunKeepsQueue(s, job);
      assert s.(jobs := []) == s;
      assert Next(Next(posted, TakeJob), RunJob) == JobRun(s, job);
      assert JobsDone(posted) == JobsDone(JobRun(s, job));
    } else {
      var first, rest := s.jobs[0], s.jobs[1..];
      var base := s.(jobs := [], running := None);
      assert (s.jobs + [job])[0] == first && (s.jobs + [job])[1..] == rest + [job];
      JobRunIgnoresQueue(base, first, rest);
      JobRunIgnoresQueue(base, first, rest + [job]);
      JobRunKeepsQueue(base, first);
      var t := Next(Next(s, TakeJob), RunJob);
      assert t == JobRun(base, first).(jobs := rest);
      assert Next(Next(Posted(s, job), TakeJob), RunJob) == Posted(t, job);
      PostedJobRunsLast(t, func, arg);
    }
  }

  class BootScan {
    var channel: byte
    var discovering: nat
    var events: seq<byte>
    var delegateQueue: seq<Job>
    var running: Option<Job>
    var radio: byte
    var requested: seq<byte>
    var softap: Option<byte>
    var failures: nat
    var ready: bool

    function State(): Scan
      reads this
    {
      Scan(channel, discovering, events, delegateQueue, running, radio, requested, softap, failures, ready)
    }

    constructor ()
      ensures State() == SCAN_BOOT
    {
      channel, discovering, events, delegateQueue, running := 0, 1, [], [], None;
      radio, requested, softap, failures, ready := FIRST_CHANNEL, [], None, 0, false;
    }

    /** `delegate_post`: refuses an argument that does not fit; otherwise queues a copy of it. */
    method DelegatePost(func: Function, arg: seq<byte>) returns (posted: bool)
      requires |delegateQueue| < 4
      modifies this`delegateQueue
      ensures posted <==> |arg| <= DELEGATE_ARG_MAX_SIZE
      ensures State() == Posted(old(State()), Job(func, arg))
    {
      if |arg| > DELEGATE_ARG_MAX_SIZE {
        return false;
      }
      delegateQueue := delegateQueue + [Job(func, arg)];
      return true;
    }

    method HandleDiscoveryComplete()
      requires Enabled(State(), Handle)
      modifies this
      ensures State() == old(Next(State(), Handle))
    {
      var totalDiscoveredDevices := events[0];
      events := events[1..];
      if totalDiscoveredDevices == 0 {
        channel := (channel + 1) % 256;
        if channel > MAX_WIFI_CHANNEL {
          channel := 1;
        }
        failures := failures + 1;
        var _ := DelegatePost(RestartDiscoveryOnNewChannel, [channel]);
      } else {
        var _ := DelegatePost(RestartWifiApsta, [channel]);
      }
    }

    /** One dequeued job, to its end. */
    method RunOneJob()
      requires running.None? && delegateQueue != []
      modifies this
      ensures State() == old(Next(Next(State(), TakeJob), RunJob))
    {
      var job := delegateQueue[0];
      delegateQueue := delegateQueue[1..];
      if |job.arg| == 1 {
        match job.func {
          case RestartDiscoveryOnNewChannel =>
            radio := job.arg[0];
            requested := requested + [radio];
            discovering := discovering + 1;
          case RestartWifiApsta =>
            softap := Some(job.arg[0]);
            ready := true;
        }
      }
    }

    /** The delegate worker's loop, until it blocks on an empty queue. */
    method DelegateRunTask()
      requires running.None?
      modifies this
      ensures State() == old(JobsDone(State()))
    {
      while delegateQueue != []
        invariant running.None?
        invariant JobsDone(State()) == old(JobsDone(State()))
        decreases |delegateQueue|
      {
        RunOneJob();
      }
    }
  }
}
