/** Who holds which buffer: in every reachable state each one is in exactly one place, and none is
    lost except to an upload that ended and to a dropped chunk. */
module PipelineOwnership {
  import opened Versions
  import opened OtaModel
  import opened PipelineModel

  // ---------------------------------------------------------------- weighing the places

  /** A weight for each buffer. Sums of weights over places count buffers: all of them, or one. */
  type Weight = nat -> nat

  function One(): Weight {
    (p: nat) => 1
  }

  function Only(q: nat): Weight {
    (p: nat) => if p == q then 1 else 0
  }

  function Sum(ptrs: seq<nat>, w: Weight): nat {
    if ptrs == [] then 0 else w(ptrs[0]) + Sum(ptrs[1..], w)
  }

  function MessageSum(m: Message<Chunk>, w: Weight): nat {
    if m.Packet? then w(m.data.ptr) else 0
  }

  function EventSum(e: Event<Chunk, nat>, w: Weight): nat {
    match e
    case Transfer(ticket) => MessageSum(ticket.message, w)
    case Failed => 0
    case BufferUsed(ptr) => w(ptr)
  }

  function QueueSum(queue: seq<Ticket<Chunk>>, w: Weight): nat {
    if queue == [] then 0 else MessageSum(queue[0].message, w) + QueueSum(queue[1..], w)
  }

  function EventsSum(events: seq<Event<Chunk, nat>>, w: Weight): nat {
    if events == [] then 0 else EventSum(events[0], w) + EventsSum(events[1..], w)
  }

  function HttpSum(http: Http<Chunk, nat>, w: Weight): nat {
    match http
    case Filling(ptr) => w(ptr)
    case Posting(chunk) => w(chunk.ptr)
    case _ => 0
  }

  function WorkerSum(worker: Worker<Chunk, nat>, w: Weight): nat {
    match worker
    case Ready => 0
    case Working(ticket) => MessageSum(ticket.message, w)
    case Returning(ptr) => w(ptr)
  }

  /** Buffers on their way to or through the update worker and back. */
  function InFlight(d: Device, w: Weight): nat {
    EventsSum(d.events, w) + QueueSum(d.queue, w) + WorkerSum(d.worker, w)
  }

  /** Buffers that can still come back to the pool. */
  function Live(d: Device, w: Weight): nat {
    Sum(d.pool, w) + HttpSum(d.http, w) + InFlight(d, w)
  }

  function Held(d: Device, w: Weight): nat {
    Live(d, w) + Sum(d.kept, w) + Sum(d.dropped, w)
  }

  lemma {:induction false} SumAppend(ptrs: seq<nat>, p: nat, w: Weight)
    ensures Sum(ptrs + [p], w) == Sum(ptrs, w) + w(p)
  {
    if ptrs == [] {
    } else {
      assert (ptrs + [p])[1..] == ptrs[1..] + [p];
      SumAppend(ptrs[1..], p, w);
    }
  }

  lemma {:induction false} QueueAppend(queue: seq<Ticket<Chunk>>, ticket: Ticket<Chunk>, w: Weight)
    ensures QueueSum(queue + [ticket], w) == QueueSum(queue, w) + MessageSum(ticket.message, w)
  {
    if queue == [] {
    } else {
      assert (queue + [ticket])[1..] == queue[1..] + [ticket];
      QueueAppend(queue[1..], ticket, w);
    }
  }

  lemma {:induction false} EventAppend(events: seq<Event<Chunk, nat>>, e: Event<Chunk, nat>, w: Weight)
    ensures EventsSum(events + [e], w) == EventsSum(events, w) + EventSum(e, w)
  {
    if events == [] {
    } else {
      assert (events + [e])[1..] == events[1..] + [e];
      EventAppend(events[1..], e, w);
    }
  }

  /** A queued element weighs no more than its queue. */
  lemma {:induction false} QueueHolds(queue: seq<Ticket<Chunk>>, i: nat, w: Weight)
    requires i < |queue|
    ensures MessageSum(queue[i].message, w) <= QueueSum(queue, w)
  {
    if i == 0 {
    } else {
      QueueHolds(queue[1..], i - 1, w);
    }
  }

  lemma {:induction false} EventsHold(events: seq<Event<Chunk, nat>>, i: nat, w: Weight)
    requires i < |events|
    ensures EventSum(events[i], w) <= EventsSum(events, w)
  {
    if i == 0 {
    } else {
      EventsHold(events[1..], i - 1, w);
    }
  }

  lemma {:induction false} SumOfOnes(ptrs: seq<nat>)
    ensures Sum(ptrs, One()) == |ptrs|
  {
    if ptrs == [] {
    } else {
      SumOfOnes(ptrs[1..]);
    }
  }

  // ---------------------------------------------------------------- steps conserve every weight

  lemma DispatchConserves(d: Device, w: Weight)
    requires d.events != []
    ensures Held(Dispatched(d), w) == Held(d, w)
  {
    match d.events[0] {
      case Transfer(ticket) =>
        QueueAppend(d.queue, ticket, w);
        if ticket.message.Packet? {
          SumAppend(d.dropped, ticket.message.data.ptr, w);
        }
      case Failed =>
      case BufferUsed(ptr) => SumAppend(d.pool, ptr, w);
    }
  }

  lemma HandlerConserves(d: Device, step: Step, running: seq<byte>, w: Weight)
    requires Enabled(d, step) && !step.Dispatch? && !step.Take? && !step.Serve? && !step.Return?
    ensures Held(Next(d, step, running), w) == Held(d, w)
  {
    match step {
      case Begin => EventAppend(d.events, Transfer(Ticket(d.uploads + 1, Start)), w);
      case Post =>
        match d.http {
          case Posting(chunk) => EventAppend(d.events, Transfer(Ticket(d.uploads, Packet(chunk))), w);
          case Ending(complete) =>
            EventAppend(d.events, if complete then Transfer(Ticket(d.uploads, Complete)) else Failed, w);
        }
      case ReceiveEnd | ReceiveError => SumAppend(d.kept, d.http.ptr, w);
      case _ =>
    }
  }

  lemma WorkerConserves(d: Device, step: Step, running: seq<byte>, w: Weight)
    requires Enabled(d, step) && (step.Take? || step.Serve? || step.Return?)
    ensures Held(Next(d, step, running), w) == Held(d, w)
  {
    if step.Return? {
      EventAppend(d.events, BufferUsed(d.worker.ptr), w);
    }
  }

  /** A step moves at most one buffer, from one place to another. */
  lemma StepConserves(d: Device, step: Step, running: seq<byte>, w: Weight)
    requires Enabled(d, step)
    ensures Held(Next(d, step, running), w) == Held(d, w)
  {
    match step {
      case Dispatch => DispatchConserves(d, w);
      case Take | Serve(_) | Return => WorkerConserves(d, step, running, w);
      case _ => HandlerConserves(d, step, running, w);
    }
  }

  // ---------------------------------------------------------------- the invariant

  predicate ChunkOk(m: Message<Chunk>) {
    m.Packet? ==> m.data.ptr < BUFFERS && 0 < m.data.len <= CHUNK_SIZE
  }

  predicate BuffersOk(buffers: seq<seq<byte>>) {
    |buffers| == BUFFERS && forall i :: 0 <= i < BUFFERS ==> |buffers[i]| == 1024
  }

  /** Every address anywhere is that of a buffer, every length fits it. */
  predicate AddressesOk(d: Device) {
    && BuffersOk(d.buffers)
    && |d.queue| <= OTA_QUEUE
    && (forall i :: 0 <= i < |d.pool| ==> d.pool[i] < BUFFERS)
    && (forall i :: 0 <= i < |d.queue| ==> ChunkOk(d.queue[i].message))
    && (forall i :: 0 <= i < |d.events| && d.events[i].Transfer? ==> ChunkOk(d.events[i].ticket.message))
    && (forall i :: 0 <= i < |d.events| && d.events[i].BufferUsed? ==> d.events[i].ptr < BUFFERS)
    && (d.worker.Working? ==> ChunkOk(d.worker.ticket.message))
    && (d.worker.Returning? ==> d.worker.ptr < BUFFERS)
    && (d.http.Filling? ==> d.http.ptr < BUFFERS)
    && (d.http.Posting? ==> ChunkOk(Packet(d.http.data)))
  }

  /** All buffers are somewhere, and each one in one place only. */
  predicate EachOnce(d: Device) {
    Held(d, One()) == BUFFERS && forall p: nat :: p < BUFFERS ==> Held(d, Only(p)) == 1
  }

  predicate OwnershipInv(d: Device) {
    AddressesOk(d) && EachOnce(d)
  }

  lemma DispatchKeepsAddresses(d: Device)
    requires AddressesOk(d) && d.events != []
    ensures AddressesOk(Dispatched(d))
  {
    if d.events[0].Transfer? {
      assert ChunkOk(d.events[0].ticket.message);
    }
  }

  lemma WorkerKeepsAddresses(d: Device, step: Step, running: seq<byte>)
    requires AddressesOk(d) && Enabled(d, step) && (step.Take? || step.Serve? || step.Return?)
    ensures AddressesOk(Next(d, step, running))
  {
    if step.Take? {
      assert ChunkOk(d.queue[0].message);
    }
  }

  lemma StepKeepsAddresses(d: Device, step: Step, running: seq<byte>)
    requires AddressesOk(d) && Enabled(d, step)
    ensures AddressesOk(Next(d, step, running))
  {
    match step {
      case Dispatch => DispatchKeepsAddresses(d);
      case Take | Serve(_) | Return => WorkerKeepsAddresses(d, step, running);
      case _ =>
    }
  }

  lemma StepKeepsEachOnce(d: Device, step: Step, running: seq<byte>)
    requires EachOnce(d) && Enabled(d, step)
    ensures EachOnce(Next(d, step, running))
  {
    var next := Next(d, step, running);
    StepConserves(d, step, running, One());
    forall p: nat | p < BUFFERS ensures Held(next, Only(p)) == 1 {
      StepConserves(d, step, running, Only(p));
    }
  }

  lemma StepKeepsOwnership(d: Device, step: Step, running: seq<byte>)
    requires OwnershipInv(d) && Enabled(d, step)
    ensures OwnershipInv(Next(d, step, running))
  {
    StepKeepsAddresses(d, step, running);
    StepKeepsEachOnce(d, step, running);
  }

  lemma {:induction false} RunKeepsOwnership(d: Device, steps: seq<Step>, running: seq<byte>)
    requires OwnershipInv(d) && Run(d, steps, running)
    ensures OwnershipInv(Final(d, steps, running))
    decreases steps
  {
    if steps == [] {
    } else {
      StepKeepsOwnership(d, steps[0], running);
      RunKeepsOwnership(Next(d, steps[0], running), steps[1..], running);
    }
  }

  lemma BootOwnsAll(buffers: seq<seq<byte>>)
    requires BuffersOk(buffers)
    ensures OwnershipInv(DeviceBoot(buffers))
  {
    assert [0, 1, 2][1..] == [1, 2] && [1, 2][1..] == [2] && [2][1..] == [];
    forall p: nat | p < BUFFERS ensures Held(DeviceBoot(buffers), Only(p)) == 1 {
      assert Sum([1, 2], Only(p)) == Only(p)(1) + Sum([2], Only(p));
    }
    SumOfOnes([0, 1, 2]);
  }

  // ---------------------------------------------------------------- the order of buffers

  /** The buffer that a step hands to the upload handler. */
  function StepAcquires(d: Device, step: Step, running: seq<byte>): seq<nat>
    requires Enabled(d, step)
  {
    var http := Next(d, step, running).http;
    if d.http.Waiting? && http.Filling? then [http.ptr] else []
  }

  /** The buffer that a step hands back from the update worker. */
  function StepReturns(d: Device, step: Step): seq<nat>
    requires Enabled(d, step)
  {
    if step.Dispatch? && d.events[0].BufferUsed? then [d.events[0].ptr] else []
  }

  function Acquired(d: Device, steps: seq<Step>, running: seq<byte>): seq<nat>
    requires Run(d, steps, running)
    decreases steps
  {
    if steps == [] then []
    else StepAcquires(d, steps[0], running) + Acquired(Next(d, steps[0], running), steps[1..], running)
  }

  function Returned(d: Device, steps: seq<Step>, running: seq<byte>): seq<nat>
    requires Run(d, steps, running)
    decreases steps
  {
    if steps == [] then [] else StepReturns(d, steps[0]) + Returned(Next(d, steps[0], running), steps[1..], running)
  }

  lemma StepKeepsPoolOrder(d: Device, step: Step, running: seq<byte>)
    requires Enabled(d, step)
    ensures d.pool + StepReturns(d, step) == StepAcquires(d, step, running) + Next(d, step, running).pool
  {
    hide Handled;
    assert step.Acquire? ==> d.pool == [d.pool[0]] + d.pool[1..];
  }

  lemma {:induction false} RunKeepsPoolOrder(d: Device, steps: seq<Step>, running: seq<byte>)
    requires Run(d, steps, running)
    ensures d.pool + Returned(d, steps, running) == Acquired(d, steps, running) + Final(d, steps, running).pool
    decreases steps
  {
    hide Next, StepAcquires, StepReturns;
    if steps == [] {
      assert d.pool + [] == d.pool == [] + d.pool;
    } else {
      var next := Next(d, steps[0], running);
      StepKeepsPoolOrder(d, steps[0], running);
      RunKeepsPoolOrder(next, steps[1..], running);
      Regrouped(d.pool, StepReturns(d, steps[0]), Returned(next, steps[1..], running),
                StepAcquires(d, steps[0], running), next.pool,
                Acquired(next, steps[1..], running), Final(next, steps[1..], running).pool);
    }
  }

  lemma Regrouped(pool: seq<nat>, back: seq<nat>, laterBack: seq<nat>, out: seq<nat>, next: seq<nat>,
                  laterOut: seq<nat>, end: seq<nat>)
    requires pool + back == out + next && next + laterBack == laterOut + end
    ensures pool + (back + laterBack) == (out + laterOut) + end
  {
    assert pool + (back + laterBack) == (pool + back) + laterBack;
    assert (out + next) + laterBack == out + (next + laterBack);
    assert out + (laterOut + end) == (out + laterOut) + end;
  }

  /** The pool is first in, first out: in every run the buffers handed to the upload handler, followed
      by those in the pool, are 0, 1 and 2 followed by those handed back, in this order. */
  lemma PoolIsFifo(buffers: seq<seq<byte>>, steps: seq<Step>, running: seq<byte>)
    requires Run(DeviceBoot(buffers), steps, running)
    ensures var boot := DeviceBoot(buffers);
      Acquired(boot, steps, running) + Final(boot, steps, running).pool == [0, 1, 2] + Returned(boot, steps, running)
  {
    RunKeepsPoolOrder(DeviceBoot(buffers), steps, running);
  }

  /** A received payload stands at the front of the buffer, and the rest of it is as it was. */
  lemma PayloadOverwrites(buffer: seq<byte>, payload: seq<byte>, i: nat)
    requires |payload| <= |buffer| && i < |buffer|
    ensures |Overwritten(buffer, payload)| == |buffer|
    ensures Overwritten(buffer, payload)[i] == if i < |payload| then payload[i] else buffer[i]
  {
  }

  // ---------------------------------------------------------------- main results

  /** While the handler fills a buffer, no message and no event anywhere refers to it. */
  lemma FilledBufferIsExclusive(d: Device)
    requires OwnershipInv(d) && d.http.Filling?
    ensures forall i :: 0 <= i < |d.queue| && d.queue[i].message.Packet?
              ==> d.queue[i].message.data.ptr != d.http.ptr
    ensures forall i :: 0 <= i < |d.events| && d.events[i].Transfer? && d.events[i].ticket.message.Packet?
              ==> d.events[i].ticket.message.data.ptr != d.http.ptr
    ensures d.worker.Working? ==> !(d.worker.ticket.message.Packet? && d.worker.ticket.message.data.ptr == d.http.ptr)
    ensures d.worker.Returning? ==> d.worker.ptr != d.http.ptr
  {
    var w := Only(d.http.ptr);
    assert Held(d, w) == 1 && HttpSum(d.http, w) == 1;
    forall i | 0 <= i < |d.queue| && d.queue[i].message.Packet?
      ensures d.queue[i].message.data.ptr != d.http.ptr
    {
      QueueHolds(d.queue, i, w);
    }
    forall i | 0 <= i < |d.events| && d.events[i].Transfer? && d.events[i].ticket.message.Packet?
      ensures d.events[i].ticket.message.data.ptr != d.http.ptr
    {
      EventsHold(d.events, i, w);
    }
  }

  /** Conservation: in every run, live buffers, buffers kept by ended uploads and buffers of dropped
      chunks add up to three, and each buffer is in exactly one of those places. */
  lemma BuffersAreConserved(buffers: seq<seq<byte>>, steps: seq<Step>, running: seq<byte>)
    requires BuffersOk(buffers) && Run(DeviceBoot(buffers), steps, running)
    ensures var d := Final(DeviceBoot(buffers), steps, running);
      && Live(d, One()) + |d.kept| + |d.dropped| == BUFFERS
      && forall p: nat :: p < BUFFERS ==> Held(d, Only(p)) == 1
  {
    BootOwnsAll(buffers);
    RunKeepsOwnership(DeviceBoot(buffers), steps, running);
    var d := Final(DeviceBoot(buffers), steps, running);
    SumOfOnes(d.kept);
    SumOfOnes(d.dropped);
  }
}
