/** The upload path in place: the shared buffers, the queues between the three parties, and one
    method for each stretch of code that runs without waiting for another party. */
module UploadDevice {
  import opened Versions
  import opened OtaModel
  import OtaService
  import opened PipelineModel
  import opened PipelineOwnership

  class UploadDevice {
    const recvBuf: array2<byte>
    var bufferQueue: seq<nat>
    var http: Http<Chunk, nat>
    var events: seq<Event<Chunk, nat>>
    var otaQueue: seq<Ticket<Chunk>>
    var worker: Worker<Chunk, nat>
    var uploads: nat
    const ota: OtaService.OtaService

    // Observers: buffers and messages that nothing refers to any more.
    ghost var kept: seq<nat>
    ghost var dropped: seq<nat>
    ghost var lost: nat

    ghost predicate Valid() {
      recvBuf.Length0 == BUFFERS && recvBuf.Length1 == CHUNK_SIZE
    }

    /** The contents of one buffer. */
    ghost function Buffer(i: nat): (b: seq<byte>)
      requires i < recvBuf.Length0
      reads recvBuf
      ensures |b| == recvBuf.Length1
      ensures forall j :: 0 <= j < |b| ==> b[j] == recvBuf[i, j]
    {
      seq(recvBuf.Length1, j requires 0 <= j < recvBuf.Length1 reads recvBuf => recvBuf[i, j])
    }

    ghost function Buffers(): (b: seq<seq<byte>>)
      requires Valid()
      reads recvBuf
    {
      [Buffer(0), Buffer(1), Buffer(2)]
    }

    ghost function State(): Device
      requires Valid()
      reads this, recvBuf, ota
    {
      Device(Buffers(), bufferQueue, http, events, otaQueue, worker, ota.State(), uploads, kept, dropped, lost)
    }

    /** `http_server_init`, up to the start of the server: every buffer goes into the pool. */
    constructor ()
      ensures Valid() && fresh(recvBuf) && fresh(ota)
      ensures BuffersOk(Buffers()) && State() == DeviceBoot(Buffers())
    {
      recvBuf := new byte[BUFFERS, CHUNK_SIZE]((i, j) => 0);
      http, events, otaQueue, worker, uploads := NoUpload, [], [], Ready, 0;
      kept, dropped, lost := [], [], 0;
      ota := new OtaService.OtaService();
      bufferQueue := [];
      new;
      var i := 0;
      while i < BUFFERS
        invariant 0 <= i <= BUFFERS
        invariant bufferQueue == [0, 1, 2][..i]
        invariant Valid() && fresh(recvBuf) && fresh(ota)
        invariant State() == DeviceBoot(Buffers()).(pool := bufferQueue)
        modifies this`bufferQueue
      {
        bufferQueue := bufferQueue + [i];
        i := i + 1;
      }
    }

    // ---------------------------------------------------------------- the upload handler

    /** An upload request arrives: the started event is posted, whether or not a buffer is free. */
    method BeginUpload(ghost running: seq<byte>)
      requires Valid() && Enabled(State(), Step.Begin)
      modifies this
      ensures Valid() && State() == old(Next(State(), Step.Begin, running))
    {
      uploads := uploads + 1;
      events := events + [Transfer(Ticket(uploads, Start))];
      http := Waiting;
    }

    /** `get_chunk_buffer_from_pool(0)`, once a buffer is there. */
    method GetChunkBuffer(ghost running: seq<byte>)
      requires Valid() && Enabled(State(), Acquire)
      modifies this
      ensures Valid() && State() == old(Next(State(), Acquire, running))
    {
      http := Filling(bufferQueue[0]);
      bufferQueue := bufferQueue[1..];
    }

    /** `httpd_req_recv` returns a positive length: the payload is now at the front of the buffer. */
    method ReceiveChunk(payload: seq<byte>, ghost running: seq<byte>)
      requires Valid() && Enabled(State(), Receive(payload))
      modifies this, recvBuf
      ensures Valid() && State() == old(Next(State(), Receive(payload), running))
    {
      var ptr := http.ptr;
      ghost var before := Buffers();
      var i := 0;
      while i < |payload|
        invariant 0 <= i <= |payload|
        invariant forall k, j :: 0 <= k < BUFFERS && 0 <= j < CHUNK_SIZE ==>
          recvBuf[k, j] == if k == ptr && j < i then payload[j] else old(recvBuf[k, j])
        modifies recvBuf
      {
        recvBuf[ptr, i] := payload[i];
        i := i + 1;
      }
      http := Posting(Chunk(ptr, |payload|));
      assert before == old(Buffers());
      forall k: nat | k < BUFFERS
        ensures Buffer(k) == if k == ptr then Overwritten(before[k], payload) else before[k]
      {
        assert before[k] == old(Buffer(k));
      }
      assert Buffers() == before[ptr := Overwritten(before[ptr], payload)];
    }

    /** `httpd_req_recv` returns zero or an error: the loop ends, and keeps the buffer. */
    method EndReceiving(complete: bool, ghost running: seq<byte>)
      requires Valid() && Enabled(State(), ReceiveEnd)
      modifies this
      ensures Valid()
      ensures State() == old(Next(State(), if complete then ReceiveEnd else ReceiveError, running))
    {
      kept := kept + [http.ptr];
      http := Ending(complete);
    }

    /** The handler posts the event it has ready. */
    method PostEvent(ghost running: seq<byte>)
      requires Valid() && Enabled(State(), Post)
      modifies this
      ensures Valid() && State() == old(Next(State(), Post, running))
    {
      match http {
        case Posting(chunk) =>
          events := events + [Transfer(Ticket(uploads, Packet(chunk)))];
          http := Waiting;
        case Ending(complete) =>
          if complete {
            events := events + [Transfer(Ticket(uploads, Complete))];
          } else {
            events := events + [Failed];
          }
          http := NoUpload;
      }
    }

    // ---------------------------------------------------------------- the event loop

    /** `ota_service_data_event`: a send that does not wait. */
    method OtaServiceDataEvent(ticket: Ticket<Chunk>) returns (sent: bool)
      modifies this`otaQueue
      ensures sent <==> |old(otaQueue)| < OTA_QUEUE
      ensures otaQueue == if sent then old(otaQueue) + [ticket] else old(otaQueue)
    {
      sent := |otaQueue| < OTA_QUEUE;
      if sent {
        otaQueue := otaQueue + [ticket];
      }
    }

    /** One event through `routine_event_handler`, which ignores whether the send succeeded. */
    method HandleEvent(ghost running: seq<byte>)
      requires Valid() && Enabled(State(), Dispatch)
      modifies this
      ensures Valid() && State() == old(Next(State(), Dispatch, running))
    {
      var event := events[0];
      events := events[1..];
      match event {
        case Transfer(ticket) =>
          var sent := OtaServiceDataEvent(ticket);
          ghost var isPacket := ticket.message.Packet?;
          lost := if sent then lost else lost + 1;
          dropped := if !sent && isPacket then dropped + [ticket.message.data.ptr] else dropped;
        case Failed =>
        case BufferUsed(ptr) =>
          bufferQueue := bufferQueue + [ptr];
      }
    }

    // ---------------------------------------------------------------- the update worker

    method TakeMessage(ghost running: seq<byte>)
      requires Valid() && Enabled(State(), Take)
      modifies this
      ensures Valid() && State() == old(Next(State(), Take, running))
    {
      worker := Working(otaQueue[0]);
      otaQueue := otaQueue[1..];
    }

    /** Copies what the address and length of a message refer to at this moment. */
    method ReadChunk(chunk: Chunk) returns (data: seq<byte>)
      requires Valid() && chunk.ptr < BUFFERS && chunk.len <= CHUNK_SIZE
      ensures data == Buffer(chunk.ptr)[..chunk.len]
    {
      data := [];
      var i := 0;
      while i < chunk.len
        invariant 0 <= i <= chunk.len
        invariant data == Buffer(chunk.ptr)[..i]
      {
        data := data + [recvBuf[chunk.ptr, i]];
        i := i + 1;
      }
    }

    method ServeMessage(running: seq<byte>, platform: Platform)
      requires Valid() && Enabled(State(), Serve(platform))
      modifies this, ota
      ensures Valid() && State() == old(Next(State(), Serve(platform), running))
    {
      ghost var before := Buffers();
      var m: Message<seq<byte>>;
      match worker.ticket.message {
        case Packet(chunk) =>
          assert Readable(worker.ticket.message, before);
          assert before[chunk.ptr] == Buffer(chunk.ptr);
          var data := ReadChunk(chunk);
          m := Packet(data);
        case Start => m := Start;
        case Complete => m := Complete;
      }
      assert m == Resolved(worker.ticket.message, before);
      ota.HandleMessage(m, running, platform);
      match worker.ticket.message {
        case Packet(chunk) => worker := Returning(chunk.ptr);
        case Start => worker := Ready;
        case Complete => worker := Ready;
      }
      assert Buffers() == before;
    }

    method ReturnBuffer(ghost running: seq<byte>)
      requires Valid() && Enabled(State(), Return)
      modifies this
      ensures Valid() && State() == old(Next(State(), Return, running))
    {
      events := events + [BufferUsed(worker.ptr)];
      worker := Ready;
    }
  }
}
