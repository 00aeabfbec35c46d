/** What the upload path loses, when it cannot lose anything, and when an upload waiting for a buffer
    gets one. */
module PipelineProgress {
  import opened Options
  import opened Versions
  import opened OtaModel
  import opened PipelineModel
  import opened PipelineOwnership

  // ---------------------------------------------------------------- ended uploads

  /** Events that carry no buffer. */
  function Controls(events: seq<Event<Chunk, nat>>): nat {
    if events == [] then 0
    else (if events[0].Failed? || (events[0].Transfer? && !events[0].ticket.message.Packet?) then 1 else 0)
         + Controls(events[1..])
  }

  lemma {:induction false} ControlsAppend(events: seq<Event<Chunk, nat>>, e: Event<Chunk, nat>)
    ensures Controls(events + [e]) == Controls(events) + Controls([e])
  {
    if events != [] {
      assert (events + [e])[1..] == events[1..] + [e];
      ControlsAppend(events[1..], e);
    } else {
      assert events + [e] == [e];
    }
  }

  lemma {:induction false} EventsAreControlsAndBuffers(events: seq<Event<Chunk, nat>>)
    ensures |events| == Controls(events) + EventsSum(events, One())
  {
    if events == [] {
    } else {
      EventsAreControlsAndBuffers(events[1..]);
    }
  }

  predicate CountInv(d: Device) {
    && d.uploads == |d.kept| + Count(Receives(d.http))
    && Controls(d.events) + (if d.http.Ending? then 1 else 0) <= d.uploads + |d.kept|
  }

  lemma StepKeepsCounts(d: Device, step: Step, running: seq<byte>)
    requires CountInv(d) && Enabled(d, step)
    ensures CountInv(Next(d, step, running))
  {
    match step {
      case Begin => ControlsAppend(d.events, Transfer(Ticket(d.uploads + 1, Start)));
      case Post =>
        match d.http {
          case Posting(chunk) => ControlsAppend(d.events, Transfer(Ticket(d.uploads, Packet(chunk))));
          case Ending(complete) =>
            ControlsAppend(d.events, if complete then Transfer(Ticket(d.uploads, Complete)) else Failed);
        }
      case Return => ControlsAppend(d.events, BufferUsed(d.worker.ptr));
      case _ =>
    }
  }

  /** How many uploads of a run came to their end, complete or failed. */
  function Ends(steps: seq<Step>): nat {
    if steps == [] then 0
    else (if steps[0].ReceiveEnd? || steps[0].ReceiveError? then 1 else 0) + Ends(steps[1..])
  }

  lemma {:induction false} EndsKeepBuffers(d: Device, steps: seq<Step>, running: seq<byte>)
    requires CountInv(d) && Run(d, steps, running)
    ensures CountInv(Final(d, steps, running))
    ensures |Final(d, steps, running).kept| == |d.kept| + Ends(steps)
    decreases steps
  {
    if steps == [] {
    } else {
      StepKeepsCounts(d, steps[0], running);
      EndsKeepBuffers(Next(d, steps[0], running), steps[1..], running);
    }
  }

  /** Every upload that ends, whether complete or failed, costs a buffer for the rest of the boot, and
      so does every dropped chunk. At most three uploads end, and at most ten events ever wait. */
  lemma UploadsCostBuffers(buffers: seq<seq<byte>>, steps: seq<Step>, running: seq<byte>)
    requires BuffersOk(buffers) && Run(DeviceBoot(buffers), steps, running)
    ensures var d := Final(DeviceBoot(buffers), steps, running);
      && Live(d, One()) + Ends(steps) + |d.dropped| == BUFFERS
      && Ends(steps) <= 3 && d.uploads <= 4 && |d.events| <= 10
  {
    BuffersAreConserved(buffers, steps, running);
    EndsKeepBuffers(DeviceBoot(buffers), steps, running);
    EventsAreControlsAndBuffers(Final(DeviceBoot(buffers), steps, running).events);
  }

  // ---------------------------------------------------------------- the order of messages

  predicate TicketOk(d: Device, t: Ticket<Chunk>) {
    1 <= t.upload <= d.uploads && (t.upload == d.uploads && t.message.Complete? ==> d.http.NoUpload?)
  }

  predicate OrderInv(d: Device) {
    && (forall i, j :: 0 <= i < j < |d.queue| ==> Ahead(d.queue[i], d.queue[j]))
    && (forall i, j :: 0 <= i < |d.queue| && 0 <= j < |d.events| && d.events[j].Transfer?
          ==> Ahead(d.queue[i], d.events[j].ticket))
    && (forall i, j :: 0 <= i < j < |d.events| && d.events[i].Transfer? && d.events[j].Transfer?
          ==> Ahead(d.events[i].ticket, d.events[j].ticket))
    && (forall i :: 0 <= i < |d.queue| ==> TicketOk(d, d.queue[i]))
    && (forall i :: 0 <= i < |d.events| && d.events[i].Transfer? ==> TicketOk(d, d.events[i].ticket))
    && (!d.http.NoUpload? ==> d.uploads >= 1)
  }

  lemma SendKeepsOrder(d: Device, t: Ticket<Chunk>)
    requires OrderInv(d) && TicketOk(d, t)
    requires forall i :: 0 <= i < |d.queue| ==> Ahead(d.queue[i], t)
    requires forall i :: 0 <= i < |d.events| && d.events[i].Transfer? ==> Ahead(d.events[i].ticket, t)
    ensures OrderInv(Sent(d, t))
  {
  }

  lemma BeginKeepsOrder(d: Device, running: seq<byte>)
    requires OrderInv(d) && Enabled(d, Step.Begin)
    ensures OrderInv(Next(d, Step.Begin, running))
  {
    SendKeepsOrder(d.(http := Waiting, uploads := d.uploads + 1), Ticket(d.uploads + 1, Start));
  }

  lemma PostKeepsOrder(d: Device, running: seq<byte>)
    requires OrderInv(d) && Enabled(d, Post)
    ensures OrderInv(Next(d, Post, running))
  {
    match d.http {
      case Posting(chunk) => SendKeepsOrder(d.(http := Waiting), Ticket(d.uploads, Packet(chunk)));
      case Ending(complete) =>
        if complete {
          SendKeepsOrder(d.(http := NoUpload), Ticket(d.uploads, Complete));
        }
    }
  }

  lemma DispatchKeepsOrder(d: Device)
    requires OrderInv(d) && Enabled(d, Dispatch)
    ensures OrderInv(Dispatched(d))
  {
    var rest := d.(events := d.events[1..]);
    assert forall i :: 0 <= i < |rest.events| ==> rest.events[i] == d.events[i + 1];
    assert OrderInv(rest);
    if d.events[0].Transfer? && |d.queue| < OTA_QUEUE {
      QueueKeepsOrder(rest, d.events[0].ticket);
    }
  }

  lemma QueueKeepsOrder(d: Device, t: Ticket<Chunk>)
    requires OrderInv(d) && TicketOk(d, t)
    requires forall i :: 0 <= i < |d.queue| ==> Ahead(d.queue[i], t)
    requires forall i :: 0 <= i < |d.events| && d.events[i].Transfer? ==> Ahead(t, d.events[i].ticket)
    ensures OrderInv(d.(queue := d.queue + [t]))
  {
  }

  lemma TakeKeepsOrder(d: Device, running: seq<byte>)
    requires OrderInv(d) && Enabled(d, Take)
    ensures OrderInv(Next(d, Take, running))
  {
    var rest := d.queue[1..];
    assert forall i :: 0 <= i < |rest| ==> rest[i] == d.queue[i + 1];
  }

  lemma StepKeepsOrder(d: Device, step: Step, running: seq<byte>)
    requires OrderInv(d) && Enabled(d, step)
    ensures OrderInv(Next(d, step, running))
  {
    match step {
      case Begin => BeginKeepsOrder(d, running);
      case Post => PostKeepsOrder(d, running);
      case Dispatch => DispatchKeepsOrder(d);
      case Take => TakeKeepsOrder(d, running);
      case _ =>
    }
  }

  /** Everything that holds in every reachable state. */
  predicate PathInv(d: Device) {
    OwnershipInv(d) && CountInv(d) && OrderInv(d)
  }

  lemma StepKeepsPath(d: Device, step: Step, running: seq<byte>)
    requires PathInv(d) && Enabled(d, step)
    ensures PathInv(Next(d, step, running))
  {
    StepKeepsOwnership(d, step, running);
    StepKeepsCounts(d, step, running);
    StepKeepsOrder(d, step, running);
  }

  lemma {:induction false} RunKeepsPath(d: Device, steps: seq<Step>, running: seq<byte>)
    requires PathInv(d) && Run(d, steps, running)
    ensures PathInv(Final(d, steps, running))
    decreases steps
  {
    if steps == [] {
    } else {
      StepKeepsPath(d, steps[0], running);
      RunKeepsPath(Next(d, steps[0], running), steps[1..], running);
    }
  }

  lemma ReachableIsOnPath(buffers: seq<seq<byte>>, steps: seq<Step>, running: seq<byte>)
    requires BuffersOk(buffers) && Run(DeviceBoot(buffers), steps, running)
    ensures PathInv(Final(DeviceBoot(buffers), steps, running))
  {
    BootOwnsAll(buffers);
    RunKeepsPath(DeviceBoot(buffers), steps, running);
  }

  // ---------------------------------------------------------------- no loss, once started

  lemma {:induction false} PacketsOccupyBuffers(queue: seq<Ticket<Chunk>>)
    requires forall i :: 0 <= i < |queue| ==> queue[i].message.Packet?
    ensures QueueSum(queue, One()) == |queue|
  {
    if queue == [] {
    } else {
      PacketsOccupyBuffers(queue[1..]);
    }
  }

  /** A chunk or complete message that would find the update queue full finds a start or complete
      message in it. */
  lemma FullQueueHoldsControl(d: Device)
    requires PathInv(d) && d.events != [] && d.events[0].Transfer? && !d.events[0].ticket.message.Start?
    requires |d.queue| == OTA_QUEUE
    ensures exists i :: 0 <= i < |d.queue| && !d.queue[i].message.Packet?
  {
    var t := d.events[0].ticket;
    SumOfOnes(d.kept);
    EventsHold(d.events, 0, One());
    assert TicketOk(d, t);
    assert t.message.Complete? ==> |d.kept| >= 1;
    assert t.message.Packet? ==> EventsSum(d.events, One()) >= 1;
    if forall i :: 0 <= i < |d.queue| ==> d.queue[i].message.Packet? {
      PacketsOccupyBuffers(d.queue);
    }
  }

  /** No message up to the start message of an upload is waiting any more. */
  predicate StartTaken(d: Device, upload: nat) {
    && upload <= d.uploads
    && (forall i :: 0 <= i < |d.queue| ==> PastStart(d.queue[i], upload))
    && (forall i :: 0 <= i < |d.events| && d.events[i].Transfer? ==> PastStart(d.events[i].ticket, upload))
  }

  predicate PastStart(t: Ticket<Chunk>, upload: nat) {
    t.upload > upload || (t.upload == upload && !t.message.Start?)
  }

  lemma StepKeepsStartTaken(d: Device, step: Step, running: seq<byte>, upload: nat)
    requires StartTaken(d, upload) && Enabled(d, step)
    ensures StartTaken(Next(d, step, running), upload)
  {
  }

  lemma {:induction false} RunKeepsStartTaken(d: Device, steps: seq<Step>, running: seq<byte>, upload: nat)
    requires StartTaken(d, upload) && Run(d, steps, running)
    ensures StartTaken(Final(d, steps, running), upload)
    decreases steps
  {
    if steps == [] {
    } else {
      StepKeepsStartTaken(d, steps[0], running, upload);
      RunKeepsStartTaken(Next(d, steps[0], running), steps[1..], running, upload);
    }
  }

  lemma StartedUploadFindsRoom(d: Device, upload: nat)
    requires PathInv(d) && StartTaken(d, upload)
    requires d.events != [] && d.events[0].Transfer? && d.events[0].ticket.upload == upload
    ensures |d.queue| < OTA_QUEUE
  {
    if |d.queue| == OTA_QUEUE {
      assert PastStart(d.events[0].ticket, upload);
      FullQueueHoldsControl(d);
      forall i | 0 <= i < |d.queue| ensures d.queue[i].message.Packet? {
        assert Ahead(d.queue[i], d.events[0].ticket) && PastStart(d.queue[i], upload);
      }
    }
  }

  lemma TakingStart(before: Device, running: seq<byte>)
    requires OrderInv(before) && Enabled(before, Take) && before.queue[0].message == Start
    ensures StartTaken(Next(before, Take, running), before.queue[0].upload)
  {
    var started := Next(before, Take, running);
    assert TicketOk(before, before.queue[0]);
    forall i | 0 <= i < |started.queue| ensures PastStart(started.queue[i], before.queue[0].upload) {
      assert Ahead(before.queue[0], before.queue[i + 1]);
    }
    forall i | 0 <= i < |started.events| && started.events[i].Transfer?
      ensures PastStart(started.events[i].ticket, before.queue[0].upload)
    {
      assert Ahead(before.queue[0], before.events[i].ticket);
    }
  }

  /** The step finds the update queue full for a chunk of the upload. */
  predicate Drops(d: Device, step: Step, upload: nat) {
    && step.Dispatch? && d.events != [] && d.events[0].Transfer? && d.events[0].ticket.upload == upload
    && d.events[0].ticket.message.Packet? && |d.queue| >= OTA_QUEUE
  }

  /** How many chunks of an upload a run drops. */
  function Losses(d: Device, steps: seq<Step>, running: seq<byte>, upload: nat): nat
    requires Run(d, steps, running)
    decreases steps
  {
    if steps == [] then 0
    else (if Drops(d, steps[0], upload) then 1 else 0) + Losses(Next(d, steps[0], running), steps[1..], running, upload)
  }

  lemma {:induction false} StartedLosesNothing(d: Device, steps: seq<Step>, running: seq<byte>, upload: nat)
    requires PathInv(d) && StartTaken(d, upload) && Run(d, steps, running)
    ensures Losses(d, steps, running, upload) == 0
    decreases steps
  {
    hide Next, PathInv, StartTaken;
    if steps == [] {
    } else {
      if Drops(d, steps[0], upload) {
        StartedUploadFindsRoom(d, upload);
      }
      StepKeepsPath(d, steps[0], running);
      StepKeepsStartTaken(d, steps[0], running, upload);
      StartedLosesNothing(Next(d, steps[0], running), steps[1..], running, upload);
    }
  }

  /** Once the update worker has dequeued the start message of an upload, no chunk and no complete
      message of that upload is dropped any more, although the queue holds only three and the event
      loop never waits for it. */
  lemma NoLossOnceStarted(before: Device, steps: seq<Step>, running: seq<byte>)
    requires PathInv(before) && Enabled(before, Take) && before.queue[0].message == Start
    requires Run(Next(before, Take, running), steps, running)
    ensures Losses(Next(before, Take, running), steps, running, before.queue[0].upload) == 0
    ensures var d := Final(Next(before, Take, running), steps, running);
      Enabled(d, Dispatch) && d.events[0].Transfer? && d.events[0].ticket.upload == before.queue[0].upload
      ==> Dispatched(d).lost == d.lost && Dispatched(d).queue == d.queue + [d.events[0].ticket]
  {
    hide Next, PathInv, StartTaken, OwnershipInv;
    var upload := before.queue[0].upload;
    var started := Next(before, Take, running);
    StepKeepsPath(before, Take, running);
    PathIsOrdered(before);
    TakingStart(before, running);
    RunKeepsPath(started, steps, running);
    RunKeepsStartTaken(started, steps, running, upload);
    StartedLosesNothing(started, steps, running, upload);
    var d := Final(started, steps, running);
    if Enabled(d, Dispatch) && d.events[0].Transfer? && d.events[0].ticket.upload == upload {
      StartedUploadFindsRoom(d, upload);
    }
  }

  lemma PathIsOrdered(d: Device)
    requires PathInv(d)
    ensures OrderInv(d) && OwnershipInv(d)
  {
  }

  // ---------------------------------------------------------------- waiting for a buffer

  /** The steps that do not belong to the upload handler. */
  predicate Background(step: Step) {
    step.Dispatch? || step.Take? || step.Serve? || step.Return?
  }

  predicate AllBackground(steps: seq<Step>) {
    forall i :: 0 <= i < |steps| ==> Background(steps[i])
  }

  function EventWork(e: Event<Chunk, nat>): nat {
    match e
    case Transfer(ticket) => if ticket.message.Packet? then 5 else 3
    case Failed => 1
    case BufferUsed(_) => 1
  }

  function EventsWork(events: seq<Event<Chunk, nat>>): nat {
    if events == [] then 0 else EventWork(events[0]) + EventsWork(events[1..])
  }

  function QueueWork(queue: seq<Ticket<Chunk>>): nat {
    if queue == [] then 0 else (if queue[0].message.Packet? then 4 else 2) + QueueWork(queue[1..])
  }

  /** Background steps still to be taken for everything in flight. */
  function Work(d: Device): nat {
    EventsWork(d.events) + QueueWork(d.queue) +
    match d.worker
    case Ready => 0
    case Working(ticket) => if ticket.message.Packet? then 3 else 1
    case Returning(_) => 2
  }

  lemma {:induction false} EventsWorkAppend(events: seq<Event<Chunk, nat>>, e: Event<Chunk, nat>)
    ensures EventsWork(events + [e]) == EventsWork(events) + EventWork(e)
  {
    if events == [] {
    } else {
      assert (events + [e])[1..] == events[1..] + [e];
      EventsWorkAppend(events[1..], e);
    }
  }

  lemma {:induction false} QueueWorkAppend(queue: seq<Ticket<Chunk>>, t: Ticket<Chunk>)
    ensures QueueWork(queue + [t]) == QueueWork(queue) + (if t.message.Packet? then 4 else 2)
  {
    if queue == [] {
    } else {
      assert (queue + [t])[1..] == queue[1..] + [t];
      QueueWorkAppend(queue[1..], t);
    }
  }

  /** Each background step does a piece of the work and touches neither handler nor kept buffers. */
  lemma BackgroundWorks(d: Device, step: Step, running: seq<byte>)
    requires Enabled(d, step) && Background(step)
    ensures var next := Next(d, step, running);
      Work(next) < Work(d) && next.http == d.http && next.kept == d.kept
  {
    match step {
      case Dispatch =>
        if d.events[0].Transfer? {
          QueueWorkAppend(d.queue, d.events[0].ticket);
        }
      case Return => EventsWorkAppend(d.events, BufferUsed(d.worker.ptr));
      case _ =>
    }
  }

  /** Nothing that comes back finds the pool full, so `http_server_return_chunk_buffer` never blocks. */
  lemma PoolHasRoom(d: Device)
    requires OwnershipInv(d) && d.events != [] && d.events[0].BufferUsed?
    ensures |d.pool| < BUFFERS
  {
    SumOfOnes(d.pool);
    EventsHold(d.events, 0, One());
  }

  /** As long as there is work and no restart, some background step can be taken. This one serves the
      worker first. */
  lemma BackgroundIsEnabled(d: Device, platform: Platform) returns (step: Step)
    requires OwnershipInv(d) && !d.ota.restarted && Work(d) > 0
    ensures Background(step) && Enabled(d, step)
    ensures step.Dispatch? ==> d.queue == []
    ensures step.Serve? ==> step.platform == platform
  {
    if d.worker.Working? {
      step := Serve(platform);
      assert ChunkOk(d.worker.ticket.message);
    } else if d.worker.Returning? {
      step := Return;
    } else if d.queue != [] {
      step := Take;
    } else {
      step := Dispatch;
      if d.events[0].BufferUsed? {
        PoolHasRoom(d);
      }
    }
  }

  /** Nobody ever waits for anything but a buffer or something to do: without a restart, the upload
      handler can go on in each of its states with whatever it receives, unless it waits for a buffer
      and the pool is empty; and each of the other tasks can go on as soon as it has something to do. */
  lemma NobodyBlocks(d: Device, payload: seq<byte>, platform: Platform)
    requires OwnershipInv(d) && !d.ota.restarted
    ensures match d.http
      case NoUpload => Enabled(d, Step.Begin)
      case Waiting => Enabled(d, Acquire) <==> d.pool != []
      case Filling(_) => Enabled(d, ReceiveEnd) && Enabled(d, ReceiveError) &&
                         (Enabled(d, Receive(payload)) <==> 0 < |payload| <= 1024)
      case _ => Enabled(d, Post)
    ensures match d.worker
      case Ready => Enabled(d, Take) <==> d.queue != []
      case Working(_) => Enabled(d, Serve(platform))
      case Returning(_) => Enabled(d, Return)
    ensures Enabled(d, Dispatch) <==> d.events != []
  {
    if d.events != [] && d.events[0].BufferUsed? {
      PoolHasRoom(d);
    }
    assert d.worker.Working? ==> ChunkOk(d.worker.ticket.message);
  }

  lemma {:induction false} NoWorkNothingInFlight(d: Device)
    requires Work(d) == 0
    ensures InFlight(d, One()) == 0
  {
    assert d.events == [] && d.queue == [];
  }

  /** While an upload waits, the other tasks take at most `Work` steps; once they are done, the pool
      holds every buffer that is not lost. */
  lemma {:induction false} WaitingEnds(d: Device, steps: seq<Step>, running: seq<byte>)
    requires OwnershipInv(d) && d.http.Waiting? && AllBackground(steps) && Run(d, steps, running)
    ensures var end := Final(d, steps, running);
      && |steps| + Work(end) <= Work(d) && end.http.Waiting? && end.kept == d.kept
      && (Work(end) == 0 ==> |end.pool| + |end.kept| + |end.dropped| == BUFFERS)
    decreases steps
  {
    if steps != [] {
      assert Background(steps[0]);
      BackgroundWorks(d, steps[0], running);
      StepKeepsOwnership(d, steps[0], running);
      assert forall i :: 0 <= i < |steps[1..]| ==> steps[1..][i] == steps[i + 1];
      WaitingEnds(Next(d, steps[0], running), steps[1..], running);
    } else {
      SumOfOnes(d.pool);
      SumOfOnes(d.kept);
      SumOfOnes(d.dropped);
      if Work(d) == 0 {
        NoWorkNothingInFlight(d);
      }
    }
  }

  /** Answers under which no boot partition can be set. */
  const NO_SWITCH := Platform(true, true, [], None, true, true, true, false)

  lemma RefusedSwitchGoesOn(s: Ota, m: Message<seq<byte>>, running: seq<byte>, p: Platform)
    requires !s.restarted
    ensures !p.bootOk ==> !Handled(s, m, running, p).restarted
  {
  }

  /** If a buffer is left, some order of the other tasks' steps hands one to the waiting upload or
      restarts the device, without dropping anything. */
  lemma {:induction false} LiveBufferCanReturn(d: Device, running: seq<byte>, platform: Platform)
      returns (steps: seq<Step>)
    requires OwnershipInv(d) && d.http.Waiting? && Live(d, One()) > 0
    ensures AllBackground(steps) && Run(d, steps, running)
    ensures var end := Final(d, steps, running);
      && (end.ota.restarted || Enabled(end, Acquire)) && end.lost == d.lost
      && (!d.ota.restarted && !platform.bootOk ==> !end.ota.restarted)
    decreases Work(d)
  {
    if d.pool != [] || d.ota.restarted {
      steps := [];
    } else {
      if Work(d) == 0 {
        NoWorkNothingInFlight(d);
      }
      var step := BackgroundIsEnabled(d, platform);
      var next := Next(d, step, running);
      BackgroundWorks(d, step, running);
      StepKeepsOwnership(d, step, running);
      assert next.lost == d.lost && next.dropped == d.dropped;
      if step.Serve? {
        RefusedSwitchGoesOn(d.ota, Resolved(d.worker.ticket.message, d.buffers), running, platform);
      }
      StepConserves(d, step, running, One());
      var rest := LiveBufferCanReturn(next, running, platform);
      steps := [step] + rest;
      assert steps[1..] == rest;
    }
  }

  lemma NothingIsDropped(d: Device, step: Step, running: seq<byte>)
    requires PathInv(d) && StartTaken(d, d.uploads) && Enabled(d, step) && Background(step)
    ensures var next := Next(d, step, running);
      next.dropped == d.dropped && next.lost == d.lost && next.uploads == d.uploads
  {
    if step.Dispatch? && d.events[0].Transfer? {
      assert TicketOk(d, d.events[0].ticket) && PastStart(d.events[0].ticket, d.uploads);
      StartedUploadFindsRoom(d, d.uploads);
    }
  }

  lemma {:induction false} WaitingDropsNothing(d: Device, steps: seq<Step>, running: seq<byte>)
    requires PathInv(d) && StartTaken(d, d.uploads) && AllBackground(steps) && Run(d, steps, running)
    ensures var end := Final(d, steps, running); end.dropped == d.dropped && end.lost == d.lost
    decreases steps
  {
    hide Next, PathInv, StartTaken;
    if steps == [] {
    } else {
      assert Background(steps[0]);
      NothingIsDropped(d, steps[0], running);
      StepKeepsPath(d, steps[0], running);
      StepKeepsStartTaken(d, steps[0], running, d.uploads);
      assert forall i :: 0 <= i < |steps[1..]| ==> steps[1..][i] == steps[i + 1];
      WaitingDropsNothing(Next(d, steps[0], running), steps[1..], running);
    }
  }

  /** No task but the upload handler can do anything. */
  ghost predicate Exhausted(d: Device) {
    forall step :: Background(step) ==> !Enabled(d, step)
  }

  /** Once the start message of the waiting upload has been dequeued and a buffer is left, every order
      in which the other tasks run out of work hands the upload a buffer, unless it restarts the
      device. */
  lemma LiveBufferReturns(d: Device, steps: seq<Step>, running: seq<byte>)
    requires PathInv(d) && d.http.Waiting? && StartTaken(d, d.uploads) && Live(d, One()) > 0
    requires AllBackground(steps) && Run(d, steps, running) && Exhausted(Final(d, steps, running))
    ensures var end := Final(d, steps, running);
      end.lost == d.lost && (end.ota.restarted || Enabled(end, Acquire))
  {
    hide Next;
    var end := Final(d, steps, running);
    RunKeepsOwnership(d, steps, running);
    WaitingEnds(d, steps, running);
    WaitingDropsNothing(d, steps, running);
    SumOfOnes(d.kept);
    SumOfOnes(d.dropped);
    if !end.ota.restarted && Work(end) > 0 {
      var step := BackgroundIsEnabled(end, NO_SWITCH);
    }
  }

  /** If none is left, the upload waits for the rest of the boot, whatever happens. */
  lemma {:induction false} NoBufferNoReturn(d: Device, steps: seq<Step>, running: seq<byte>)
    requires d.http.Waiting? && Live(d, One()) == 0 && Run(d, steps, running)
    ensures var end := Final(d, steps, running);
      end.http.Waiting? && Live(end, One()) == 0 && !Enabled(end, Acquire)
    decreases steps
  {
    SumOfOnes(d.pool);
    if steps == [] {
    } else {
      var next := Next(d, steps[0], running);
      StepConserves(d, steps[0], running, One());
      LostStaysLost(d, steps[0], running);
      NoBufferNoReturn(next, steps[1..], running);
    }
  }

  lemma LostStaysLost(d: Device, step: Step, running: seq<byte>)
    requires Enabled(d, step)
    ensures var next := Next(d, step, running);
      Sum(next.kept, One()) + Sum(next.dropped, One()) >= Sum(d.kept, One()) + Sum(d.dropped, One())
  {
    SumOfOnes(d.kept);
    SumOfOnes(d.dropped);
    SumOfOnes(Next(d, step, running).kept);
    SumOfOnes(Next(d, step, running).dropped);
  }

  /** A waiting upload can still get a buffer if and only if one is left and there was no restart. */
  lemma WaitingIsHopefulIff(d: Device, running: seq<byte>)
    requires OwnershipInv(d) && d.http.Waiting?
    ensures (exists steps :: Run(d, steps, running) && Enabled(Final(d, steps, running), Acquire))
            <==> (Live(d, One()) > 0 && !d.ota.restarted)
  {
    forall steps | Run(d, steps, running) && Enabled(Final(d, steps, running), Acquire)
      ensures Live(d, One()) > 0 && !d.ota.restarted
    {
      if Live(d, One()) == 0 {
        NoBufferNoReturn(d, steps, running);
      }
    }
    if Live(d, One()) > 0 && !d.ota.restarted {
      var steps := LiveBufferCanReturn(d, running, NO_SWITCH);
    }
  }
}
