/** The upload path with payloads instead of addresses, and the proof that passing addresses of
    reused buffers makes no difference to it. */
module PipelineRefinement {
  import opened Versions
  import opened OtaModel
  import opened PipelineModel
  import opened PipelineOwnership

  // ---------------------------------------------------------------- the value machine

  type Bytes = seq<byte>

  /** No buffers and no addresses: the pool is a number, messages carry their bytes. */
  datatype Values = Values(
    pool: nat,
    http: Http<Bytes, ()>,
    events: seq<Event<Bytes, ()>>,
    queue: seq<Ticket<Bytes>>,
    worker: Worker<Bytes, ()>,
    ota: Ota,
    uploads: nat,
    lost: nat)

  const VALUES_BOOT := Values(BUFFERS, NoUpload, [], [], Ready, OTA_BOOT, 0, 0)

  predicate EnabledValue(v: Values, step: Step) {
    !v.ota.restarted &&
    match step
    case Begin => v.http.NoUpload?
    case Acquire => v.http.Waiting? && v.pool > 0
    case Receive(payload) => v.http.Filling? && 0 < |payload| <= CHUNK_SIZE
    case ReceiveEnd => v.http.Filling?
    case ReceiveError => v.http.Filling?
    case Post => v.http.Posting? || v.http.Ending?
    case Dispatch => v.events != [] && (v.events[0].BufferUsed? ==> v.pool < BUFFERS)
    case Take => v.worker.Ready? && v.queue != []
    case Serve(_) => v.worker.Working?
    case Return => v.worker.Returning?
  }

  function SentValue(v: Values, ticket: Ticket<Bytes>): Values {
    v.(events := v.events + [Transfer(ticket)])
  }

  function DispatchedValue(v: Values): Values
    requires v.events != []
  {
    var rest := v.(events := v.events[1..]);
    match v.events[0]
    case Transfer(ticket) =>
      if |v.queue| < OTA_QUEUE then rest.(queue := v.queue + [ticket]) else rest.(lost := v.lost + 1)
    case Failed => rest
    case BufferUsed(_) => rest.(pool := v.pool + 1)
  }

  function NextValue(v: Values, step: Step, running: Bytes): Values
    requires EnabledValue(v, step)
  {
    match step
    case Begin => SentValue(v.(http := Waiting, uploads := v.uploads + 1), Ticket(v.uploads + 1, Start))
    case Acquire => v.(http := Filling(()), pool := v.pool - 1)
    case Receive(payload) => v.(http := Posting(payload))
    case ReceiveEnd => v.(http := Ending(true))
    case ReceiveError => v.(http := Ending(false))
    case Post => (
      match v.http
      case Posting(data) => SentValue(v.(http := Waiting), Ticket(v.uploads, Packet(data)))
      case Ending(complete) =>
        if complete then SentValue(v.(http := NoUpload), Ticket(v.uploads, Complete))
        else v.(http := NoUpload, events := v.events + [Failed]))
    case Dispatch => DispatchedValue(v)
    case Take => v.(worker := Working(v.queue[0]), queue := v.queue[1..])
    case Serve(platform) =>
      var m := v.worker.ticket.message;
      v.(ota := Handled(v.ota, m, running, platform),
         worker := if m.Packet? then Returning(()) else Ready)
    case Return => v.(worker := Ready, events := v.events + [BufferUsed(())])
  }

  // ---------------------------------------------------------------- the values behind addresses

  function TicketValue(t: Ticket<Chunk>, buffers: seq<Bytes>): Ticket<Bytes>
    requires Readable(t.message, buffers)
  {
    Ticket(t.upload, Resolved(t.message, buffers))
  }

  predicate EventReadable(e: Event<Chunk, nat>, buffers: seq<Bytes>) {
    e.Transfer? ==> Readable(e.ticket.message, buffers)
  }

  function EventValue(e: Event<Chunk, nat>, buffers: seq<Bytes>): Event<Bytes, ()>
    requires EventReadable(e, buffers)
  {
    match e
    case Transfer(ticket) => Transfer(TicketValue(ticket, buffers))
    case Failed => Failed
    case BufferUsed(_) => BufferUsed(())
  }

  function QueueValue(queue: seq<Ticket<Chunk>>, buffers: seq<Bytes>): (values: seq<Ticket<Bytes>>)
    requires forall i :: 0 <= i < |queue| ==> Readable(queue[i].message, buffers)
    ensures |values| == |queue|
    ensures forall i :: 0 <= i < |queue| ==> values[i] == TicketValue(queue[i], buffers)
  {
    if queue == [] then [] else [TicketValue(queue[0], buffers)] + QueueValue(queue[1..], buffers)
  }

  function EventsValue(events: seq<Event<Chunk, nat>>, buffers: seq<Bytes>): (values: seq<Event<Bytes, ()>>)
    requires forall i :: 0 <= i < |events| ==> EventReadable(events[i], buffers)
    ensures |values| == |events|
    ensures forall i :: 0 <= i < |events| ==> values[i] == EventValue(events[i], buffers)
  {
    if events == [] then [] else [EventValue(events[0], buffers)] + EventsValue(events[1..], buffers)
  }

  function HttpValue(http: Http<Chunk, nat>, buffers: seq<Bytes>): Http<Bytes, ()>
    requires http.Posting? ==> Readable(Packet(http.data), buffers)
  {
    match http
    case NoUpload => NoUpload
    case Waiting => Waiting
    case Filling(_) => Filling(())
    case Posting(chunk) => Posting(Resolved(Packet(chunk), buffers).data)
    case Ending(complete) => Ending(complete)
  }

  function WorkerValue(worker: Worker<Chunk, nat>, buffers: seq<Bytes>): Worker<Bytes, ()>
    requires worker.Working? ==> Readable(worker.ticket.message, buffers)
  {
    match worker
    case Ready => Ready
    case Working(ticket) => Working(TicketValue(ticket, buffers))
    case Returning(_) => Returning(())
  }

  predicate AllReadable(d: Device) {
    && (forall i :: 0 <= i < |d.queue| ==> Readable(d.queue[i].message, d.buffers))
    && (forall i :: 0 <= i < |d.events| ==> EventReadable(d.events[i], d.buffers))
    && (d.worker.Working? ==> Readable(d.worker.ticket.message, d.buffers))
    && (d.http.Posting? ==> Readable(Packet(d.http.data), d.buffers))
  }

  lemma AddressesAreReadable(d: Device)
    requires AddressesOk(d)
    ensures AllReadable(d)
  {
    forall i | 0 <= i < |d.events| ensures EventReadable(d.events[i], d.buffers) {
      assert d.events[i].Transfer? ==> ChunkOk(d.events[i].ticket.message);
    }
    forall i | 0 <= i < |d.queue| ensures Readable(d.queue[i].message, d.buffers) {
      assert ChunkOk(d.queue[i].message);
    }
  }

  function ValueOf(d: Device): Values
    requires AllReadable(d)
  {
    Values(|d.pool|, HttpValue(d.http, d.buffers), EventsValue(d.events, d.buffers),
           QueueValue(d.queue, d.buffers), WorkerValue(d.worker, d.buffers), d.ota, d.uploads, d.lost)
  }

  // ---------------------------------------------------------------- step by step

  /** Filling a buffer leaves alone every message that does not refer to it. */
  lemma OtherMessagesKeepTheirBytes(m: Message<Chunk>, buffers: seq<Bytes>, ptr: nat, payload: Bytes)
    requires Readable(m, buffers) && ptr < |buffers| && |payload| <= |buffers[ptr]|
    requires !(m.Packet? && m.data.ptr == ptr)
    ensures var filled := buffers[ptr := Overwritten(buffers[ptr], payload)];
      Readable(m, filled) && Resolved(m, filled) == Resolved(m, buffers)
  {
  }

  lemma ReceiveRefines(d: Device, payload: Bytes, running: Bytes)
    requires OwnershipInv(d) && AllReadable(d) && Enabled(d, Receive(payload))
    ensures AllReadable(Next(d, Receive(payload), running))
    ensures EnabledValue(ValueOf(d), Receive(payload))
    ensures ValueOf(Next(d, Receive(payload), running)) == NextValue(ValueOf(d), Receive(payload), running)
  {
    var ptr := d.http.ptr;
    var next := Next(d, Receive(payload), running);
    FilledBufferIsExclusive(d);
    forall i | 0 <= i < |d.queue|
      ensures Readable(d.queue[i].message, next.buffers)
      ensures TicketValue(d.queue[i], next.buffers) == TicketValue(d.queue[i], d.buffers)
    {
      OtherMessagesKeepTheirBytes(d.queue[i].message, d.buffers, ptr, payload);
    }
    forall i | 0 <= i < |d.events|
      ensures EventReadable(d.events[i], next.buffers)
      ensures EventValue(d.events[i], next.buffers) == EventValue(d.events[i], d.buffers)
    {
      if d.events[i].Transfer? {
        assert EventReadable(d.events[i], d.buffers);
        OtherMessagesKeepTheirBytes(d.events[i].ticket.message, d.buffers, ptr, payload);
      }
    }
    if d.worker.Working? {
      OtherMessagesKeepTheirBytes(d.worker.ticket.message, d.buffers, ptr, payload);
    }
    assert QueueValue(d.queue, next.buffers) == QueueValue(d.queue, d.buffers);
    assert EventsValue(d.events, next.buffers) == EventsValue(d.events, d.buffers);
    assert next.buffers[ptr][..|payload|] == payload;
  }

  lemma EventsValueAppend(events: seq<Event<Chunk, nat>>, e: Event<Chunk, nat>, buffers: seq<Bytes>)
    requires forall i :: 0 <= i < |events| ==> EventReadable(events[i], buffers)
    requires EventReadable(e, buffers)
    ensures EventsValue(events + [e], buffers) == EventsValue(events, buffers) + [EventValue(e, buffers)]
  {
  }

  lemma SendRefines(d: Device, ticket: Ticket<Chunk>)
    requires AllReadable(d) && Readable(ticket.message, d.buffers)
    ensures AllReadable(Sent(d, ticket))
    ensures ValueOf(Sent(d, ticket)) == SentValue(ValueOf(d), TicketValue(ticket, d.buffers))
  {
    EventsValueAppend(d.events, Transfer(ticket), d.buffers);
  }

  lemma BeginRefines(d: Device, running: Bytes)
    requires AllReadable(d) && Enabled(d, Step.Begin)
    ensures AllReadable(Next(d, Step.Begin, running)) && EnabledValue(ValueOf(d), Step.Begin)
    ensures ValueOf(Next(d, Step.Begin, running)) == NextValue(ValueOf(d), Step.Begin, running)
  {
    SendRefines(d.(http := Waiting, uploads := d.uploads + 1), Ticket(d.uploads + 1, Start));
  }

  lemma PostRefines(d: Device, running: Bytes)
    requires AllReadable(d) && Enabled(d, Post)
    ensures AllReadable(Next(d, Post, running)) && EnabledValue(ValueOf(d), Post)
    ensures ValueOf(Next(d, Post, running)) == NextValue(ValueOf(d), Post, running)
  {
    match d.http {
      case Posting(chunk) => SendRefines(d.(http := Waiting), Ticket(d.uploads, Packet(chunk)));
      case Ending(complete) =>
        if complete {
          SendRefines(d.(http := NoUpload), Ticket(d.uploads, Complete));
        } else {
          EventsValueAppend(d.events, Failed, d.buffers);
        }
    }
  }

  lemma DispatchRefines(d: Device)
    requires AllReadable(d) && Enabled(d, Dispatch)
    ensures AllReadable(Dispatched(d)) && EnabledValue(ValueOf(d), Dispatch)
    ensures ValueOf(Dispatched(d)) == DispatchedValue(ValueOf(d))
  {
    var rest := d.events[1..];
    assert EventReadable(d.events[0], d.buffers);
    assert forall i :: 0 <= i < |rest| ==> rest[i] == d.events[i + 1];
    assert EventsValue(rest, d.buffers) == EventsValue(d.events, d.buffers)[1..];
    if d.events[0].Transfer? && |d.queue| < OTA_QUEUE {
      var longer := d.queue + [d.events[0].ticket];
      assert forall i :: 0 <= i < |longer| ==> Readable(longer[i].message, d.buffers);
      assert QueueValue(longer, d.buffers) ==
             QueueValue(d.queue, d.buffers) + [TicketValue(d.events[0].ticket, d.buffers)];
    }
  }

  lemma WorkerRefines(d: Device, step: Step, running: Bytes)
    requires AllReadable(d) && Enabled(d, step) && (step.Take? || step.Serve? || step.Return?)
    ensures AllReadable(Next(d, step, running)) && EnabledValue(ValueOf(d), step)
    ensures ValueOf(Next(d, step, running)) == NextValue(ValueOf(d), step, running)
  {
    if step.Take? {
      var rest := d.queue[1..];
      assert Readable(d.queue[0].message, d.buffers);
      assert forall i :: 0 <= i < |rest| ==> rest[i] == d.queue[i + 1];
      assert QueueValue(rest, d.buffers) == QueueValue(d.queue, d.buffers)[1..];
    } else if step.Return? {
      EventsValueAppend(d.events, BufferUsed(d.worker.ptr), d.buffers);
    }
  }

  /** Every step of the device is the same step of the value machine, on the values behind its
      addresses. */
  lemma StepRefines(d: Device, step: Step, running: Bytes)
    requires OwnershipInv(d) && AllReadable(d) && Enabled(d, step)
    ensures AllReadable(Next(d, step, running)) && EnabledValue(ValueOf(d), step)
    ensures ValueOf(Next(d, step, running)) == NextValue(ValueOf(d), step, running)
  {
    match step {
      case Begin => BeginRefines(d, running);
      case Receive(payload) => ReceiveRefines(d, payload, running);
      case Post => PostRefines(d, running);
      case Dispatch => DispatchRefines(d);
      case Take | Serve(_) | Return => WorkerRefines(d, step, running);
      case Acquire | ReceiveEnd | ReceiveError =>
    }
  }

  /** And the device can take every step that the value machine can. */
  lemma StepIsAvailable(d: Device, step: Step)
    requires OwnershipInv(d) && AllReadable(d) && EnabledValue(ValueOf(d), step)
    ensures Enabled(d, step)
  {
  }

  // ---------------------------------------------------------------- whole runs

  predicate RunValue(v: Values, steps: seq<Step>, running: Bytes)
    decreases steps
  {
    steps == [] ||
    (EnabledValue(v, steps[0]) && RunValue(NextValue(v, steps[0], running), steps[1..], running))
  }

  function FinalValue(v: Values, steps: seq<Step>, running: Bytes): Values
    requires RunValue(v, steps, running)
    decreases steps
  {
    if steps == [] then v else FinalValue(NextValue(v, steps[0], running), steps[1..], running)
  }

  /** Device and value machine have the same runs, and the device's flash is that of the value
      machine after each. */
  lemma {:induction false} DeviceRefinesValues(d: Device, steps: seq<Step>, running: Bytes)
    requires OwnershipInv(d) && AllReadable(d)
    ensures Run(d, steps, running) <==> RunValue(ValueOf(d), steps, running)
    ensures Run(d, steps, running) ==>
      var end := Final(d, steps, running);
      AllReadable(end) && ValueOf(end) == FinalValue(ValueOf(d), steps, running)
    decreases steps
  {
    if steps == [] {
    } else {
      if EnabledValue(ValueOf(d), steps[0]) {
        StepIsAvailable(d, steps[0]);
      }
      if Enabled(d, steps[0]) {
        StepRefines(d, steps[0], running);
        StepKeepsOwnership(d, steps[0], running);
        DeviceRefinesValues(Next(d, steps[0], running), steps[1..], running);
      }
    }
  }
}
