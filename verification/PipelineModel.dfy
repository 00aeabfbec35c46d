/** The firmware upload path as a step system: the upload handler, the event loop and the update
    worker pass three fixed buffers around by address. */
module PipelineModel {
  import opened Versions
  import opened OtaModel

  const BUFFERS := 3
  const CHUNK_SIZE := 1024
  const OTA_QUEUE := 3

  /** What travels instead of a payload: the number of a buffer and how much of it is used. */
  datatype Chunk = Chunk(ptr: nat, len: nat)

  /** A message of an upload. The number of the upload is for the reader: no step looks at it. */
  datatype Ticket<+D> = Ticket(upload: nat, message: Message<D>)

  /** Whether one message may be ahead of another. */
  predicate Ahead<D>(a: Ticket<D>, b: Ticket<D>) {
    a.upload < b.upload || (a.upload == b.upload && !a.message.Complete? && !b.message.Start?)
  }

  /** `Transfer` stands for the started, chunk-arrived and complete events. */
  datatype Event<+D, +P> = Transfer(ticket: Ticket<D>) | Failed | BufferUsed(ptr: P)

  datatype Http<+D, +P> = NoUpload | Waiting | Filling(ptr: P) | Posting(data: D) | Ending(complete: bool)

  /** An upload that has started and not ended yet. */
  predicate Receives<D, P>(http: Http<D, P>) {
    http.Waiting? || http.Filling? || http.Posting?
  }

  datatype Worker<+D, +P> = Ready | Working(ticket: Ticket<D>) | Returning(ptr: P)

  /** `kept` are the buffers that ended uploads still hold, `dropped` those of chunks that found the
      update queue full; nothing refers to either any more. `lost` counts all dropped messages. */
  datatype Device = Device(
    buffers: seq<seq<byte>>,
    pool: seq<nat>,
    http: Http<Chunk, nat>,
    events: seq<Event<Chunk, nat>>,
    queue: seq<Ticket<Chunk>>,
    worker: Worker<Chunk, nat>,
    ota: Ota,
    uploads: nat,
    kept: seq<nat>,
    dropped: seq<nat>,
    lost: nat)

  /** After `http_server_init`: every buffer is in the pool. */
  function DeviceBoot(buffers: seq<seq<byte>>): Device {
    Device(buffers, [0, 1, 2], NoUpload, [], [], Ready, OTA_BOOT, 0, [], [], 0)
  }

  // ---------------------------------------------------------------- steps

  /** `Begin`, `Acquire`, `Receive`, `ReceiveEnd`, `ReceiveError` and `Post` belong to the upload
      handler, `Dispatch` to the event loop, `Take`, `Serve` and `Return` to the update worker. */
  datatype Step =
    | Begin
    | Acquire
    | Receive(payload: seq<byte>)
    | ReceiveEnd
    | ReceiveError
    | Post
    | Dispatch
    | Take
    | Serve(platform: Platform)
    | Return

  predicate Enabled(d: Device, step: Step) {
    !d.ota.restarted &&
    match step
    case Begin => d.http.NoUpload?
    case Acquire => d.http.Waiting? && d.pool != []
    case Receive(payload) =>
      d.http.Filling? && d.http.ptr < |d.buffers| && 0 < |payload| <= CHUNK_SIZE <= |d.buffers[d.http.ptr]|
    case ReceiveEnd => d.http.Filling?
    case ReceiveError => d.http.Filling?
    case Post => d.http.Posting? || d.http.Ending?
    case Dispatch => d.events != [] && (d.events[0].BufferUsed? ==> |d.pool| < BUFFERS)
    case Take => d.worker.Ready? && d.queue != []
    case Serve(_) => d.worker.Working? && Readable(d.worker.ticket.message, d.buffers)
    case Return => d.worker.Returning?
  }

  /** The message refers to bytes that exist. */
  predicate Readable(m: Message<Chunk>, buffers: seq<seq<byte>>) {
    m.Packet? ==> m.data.ptr < |buffers| && m.data.len <= |buffers[m.data.ptr]|
  }

  /** The message as the worker finds it: the bytes at the address, at that moment. */
  function Resolved(m: Message<Chunk>, buffers: seq<seq<byte>>): Message<seq<byte>>
    requires Readable(m, buffers)
  {
    match m
    case Packet(chunk) => Packet(buffers[chunk.ptr][..chunk.len])
    case Start => Start
    case Complete => Complete
  }

  /** A received payload overwrites the front of the buffer; what was behind it stays. */
  function Overwritten(buffer: seq<byte>, payload: seq<byte>): seq<byte>
    requires |payload| <= |buffer|
  {
    payload + buffer[|payload|..]
  }

  function Sent(d: Device, ticket: Ticket<Chunk>): Device {
    d.(events := d.events + [Transfer(ticket)])
  }

  /** One event, handled by the event loop without blocking. */
  function Dispatched(d: Device): Device
    requires d.events != []
  {
    var rest := d.(events := d.events[1..]);
    match d.events[0]
    case Transfer(ticket) =>
      if |d.queue| < OTA_QUEUE then rest.(queue := d.queue + [ticket])
      else if ticket.message.Packet? then
        rest.(dropped := d.dropped + [ticket.message.data.ptr], lost := d.lost + 1)
      else rest.(lost := d.lost + 1)
    case Failed => rest
    case BufferUsed(ptr) => rest.(pool := d.pool + [ptr])
  }

  function Next(d: Device, step: Step, running: seq<byte>): Device
    requires Enabled(d, step)
  {
    match step
    case Begin => Sent(d.(http := Waiting, uploads := d.uploads + 1), Ticket(d.uploads + 1, Start))
    case Acquire => d.(http := Filling(d.pool[0]), pool := d.pool[1..])
    case Receive(payload) =>
      var ptr := d.http.ptr;
      d.(buffers := d.buffers[ptr := Overwritten(d.buffers[ptr], payload)],
         http := Posting(Chunk(ptr, |payload|)))
    case ReceiveEnd => d.(http := Ending(true), kept := d.kept + [d.http.ptr])
    case ReceiveError => d.(http := Ending(false), kept := d.kept + [d.http.ptr])
    case Post => (
      match d.http
      case Posting(chunk) => Sent(d.(http := Waiting), Ticket(d.uploads, Packet(chunk)))
      case Ending(complete) =>
        if complete then Sent(d.(http := NoUpload), Ticket(d.uploads, Complete))
        else d.(http := NoUpload, events := d.events + [Failed]))
    case Dispatch => Dispatched(d)
    case Take => d.(worker := Working(d.queue[0]), queue := d.queue[1..])
    case Serve(platform) =>
      var m := d.worker.ticket.message;
      d.(ota := Handled(d.ota, Resolved(m, d.buffers), running, platform),
         worker := if m.Packet? then Returning(m.data.ptr) else Ready)
    case Return => d.(worker := Ready, events := d.events + [BufferUsed(d.worker.ptr)])
  }

  predicate Run(d: Device, steps: seq<Step>, running: seq<byte>)
    decreases steps
  {
    steps == [] || (Enabled(d, steps[0]) && Run(Next(d, steps[0], running), steps[1..], running))
  }

  function Final(d: Device, steps: seq<Step>, running: seq<byte>): Device
    requires Run(d, steps, running)
    decreases steps
  {
    if steps == [] then d else Final(Next(d, steps[0], running), steps[1..], running)
  }
}
