/** From the bytes an upload receives to the bytes in flash: what arrives is served in order, less
    what finds the update queue full. */
module PipelineFlow {
  import opened OtaModel
  import opened OtaSafety
  import opened OtaInstall
  import opened OtaImage
  import opened PipelineModel
  import opened PipelineOwnership
  import opened PipelineRefinement

  type Msg = Message<Bytes>

  /** A message with the number of its upload. */
  type Mail = Ticket<Bytes>

  /** The value machine with its history: messages produced by the upload handler, handled by the
      event loop, accepted into the update queue or missed by it, and done with; `served` are the
      latter with the platform's answers. */
  datatype Flow = Flow(
    values: Values,
    arrived: seq<Mail>,
    dispatched: seq<Mail>,
    accepted: seq<Mail>,
    missed: seq<Mail>,
    done: seq<Mail>,
    served: seq<Delivery>)

  const FLOW_BOOT := Flow(VALUES_BOOT, [], [], [], [], [], [])

  /** What a step of the upload handler adds to the history. */
  function Arrival(step: Step): seq<Msg> {
    match step
    case Begin => [Start]
    case Receive(payload) => [Packet(payload)]
    case ReceiveEnd => [Complete]
    case _ => []
  }

  /** Everything the uploads of a run produced. */
  function Arrivals(steps: seq<Step>): seq<Msg> {
    if steps == [] then [] else Arrival(steps[0]) + Arrivals(steps[1..])
  }

  lemma {:induction false} NoArrivals(steps: seq<Step>)
    requires forall i :: 0 <= i < |steps| ==> Arrival(steps[i]) == []
    ensures Arrivals(steps) == []
  {
    if steps == [] {
    } else {
      NoArrivals(steps[1..]);
    }
  }

  lemma ArrivalsOfTail(step: Step, rest: seq<Step>)
    ensures Arrivals([step] + rest) == Arrival(step) + Arrivals(rest)
  {
    assert ([step] + rest)[1..] == rest;
  }

  lemma {:induction false} ArrivalsCompose(front: seq<Step>, back: seq<Step>)
    ensures Arrivals(front + back) == Arrivals(front) + Arrivals(back)
  {
    hide Arrivals;
    if front == [] {
      assert front + back == back;
      NoArrivals(front);
    } else {
      var step, rest := front[0], front[1..];
      assert front == [step] + rest && front + back == [step] + (rest + back);
      ArrivalsOfTail(step, rest);
      ArrivalsOfTail(step, rest + back);
      ArrivalsCompose(rest, back);
    }
  }

  /** What a step adds, with the number of its upload, when `uploads` were begun before. */
  function Addressed(step: Step, uploads: nat): seq<Mail> {
    match step
    case Begin => [Ticket(uploads + 1, Start)]
    case Receive(payload) => [Ticket(uploads, Packet(payload))]
    case ReceiveEnd => [Ticket(uploads, Complete)]
    case _ => []
  }

  function Contents(mail: seq<Mail>): seq<Msg> {
    seq(|mail|, i requires 0 <= i < |mail| => mail[i].message)
  }

  function NextFlow(f: Flow, step: Step, running: Bytes): (flow: Flow)
    requires EnabledValue(f.values, step)
    ensures flow.values == NextValue(f.values, step, running)
    ensures flow.arrived == f.arrived + Addressed(step, f.values.uploads)
  {
    var next := f.(values := NextValue(f.values, step, running),
                   arrived := f.arrived + Addressed(step, f.values.uploads));
    match step
    case Dispatch => (
      match f.values.events[0]
      case Transfer(ticket) =>
        var handled := next.(dispatched := f.dispatched + [ticket]);
        if |f.values.queue| < OTA_QUEUE then handled.(accepted := f.accepted + [ticket])
        else handled.(missed := f.missed + [ticket])
      case _ => next)
    case Serve(platform) =>
      var ticket := f.values.worker.ticket;
      next.(done := f.done + [ticket], served := f.served + [Delivery(ticket.message, platform)])
    case _ => next
  }

  function FinalFlow(f: Flow, steps: seq<Step>, running: Bytes): (end: Flow)
    requires RunValue(f.values, steps, running)
    ensures end.values == FinalValue(f.values, steps, running)
    decreases steps
  {
    if steps == [] then f else FinalFlow(NextFlow(f, steps[0], running), steps[1..], running)
  }

  // ---------------------------------------------------------------- what is on its way

  function EventMail(e: Event<Bytes, ()>): seq<Mail> {
    if e.Transfer? then [e.ticket] else []
  }

  function EventsMail(events: seq<Event<Bytes, ()>>): seq<Mail> {
    if events == [] then [] else EventMail(events[0]) + EventsMail(events[1..])
  }

  function HandMail(v: Values): seq<Mail> {
    match v.http
    case Posting(data) => [Ticket(v.uploads, Packet(data))]
    case Ending(complete) => if complete then [Ticket(v.uploads, Complete)] else []
    case _ => []
  }

  function WorkerMail(worker: Worker<Bytes, ()>): seq<Mail> {
    if worker.Working? then [worker.ticket] else []
  }

  lemma {:induction false} EventsMailAppend(events: seq<Event<Bytes, ()>>, e: Event<Bytes, ()>)
    ensures EventsMail(events + [e]) == EventsMail(events) + EventMail(e)
  {
    if events == [] {
      assert [e][1..] == [] && [] + [e] == [e];
    } else {
      assert (events + [e])[1..] == events[1..] + [e];
      EventsMailAppend(events[1..], e);
    }
  }

  // ---------------------------------------------------------------- parts of sequences

  /** `part` is `whole` with some elements left out. */
  predicate Subsequence<T(==)>(part: seq<T>, whole: seq<T>)
    decreases |whole|
  {
    part == [] ||
    (whole != [] &&
     (Subsequence(part, whole[..|whole| - 1]) ||
      (part[|part| - 1] == whole[|whole| - 1] && Subsequence(part[..|part| - 1], whole[..|whole| - 1]))))
  }

  lemma SubsequenceAppend<T>(part: seq<T>, whole: seq<T>, m: T)
    requires Subsequence(part, whole)
    ensures Subsequence(part, whole + [m]) && Subsequence(part + [m], whole + [m])
  {
    assert (whole + [m])[..|whole|] == whole && (part + [m])[..|part|] == part;
  }

  lemma {:induction false} SubsequenceExtend<T>(part: seq<T>, whole: seq<T>, more: seq<T>)
    requires Subsequence(part, whole)
    ensures Subsequence(part, whole + more)
    decreases |more|
  {
    if more == [] {
      assert whole + more == whole;
    } else {
      SubsequenceExtend(part, whole, more[..|more| - 1]);
      SubsequenceAppend(part, whole + more[..|more| - 1], more[|more| - 1]);
      assert whole + more[..|more| - 1] + [more[|more| - 1]] == whole + more;
    }
  }

  lemma {:induction false} SubsequencePrefix<T>(part: seq<T>, back: seq<T>, whole: seq<T>)
    requires Subsequence(part + back, whole)
    ensures Subsequence(part, whole)
    decreases |whole|
  {
    if back == [] {
      assert part + back == part;
    } else if part == [] {
    } else {
      var all := part + back;
      var front := whole[..|whole| - 1];
      if Subsequence(all, front) {
        SubsequencePrefix(part, back, front);
      } else {
        assert all[..|all| - 1] == part + back[..|back| - 1];
        SubsequencePrefix(part, back[..|back| - 1], front);
      }
    }
  }

  lemma ContentsAppend(mail: seq<Mail>, t: Mail)
    ensures Contents(mail + [t]) == Contents(mail) + [t.message]
  {
  }

  lemma {:induction false} ContentsOfSubsequence(part: seq<Mail>, whole: seq<Mail>)
    requires Subsequence(part, whole)
    ensures Subsequence(Contents(part), Contents(whole))
    decreases |whole|
  {
    if part == [] {
    } else {
      var front, last := whole[..|whole| - 1], whole[|whole| - 1];
      assert whole == front + [last];
      ContentsAppend(front, last);
      if Subsequence(part, front) {
        ContentsOfSubsequence(part, front);
        SubsequenceAppend(Contents(part), Contents(front), last.message);
      } else {
        var before := part[..|part| - 1];
        assert part == before + [last];
        ContentsAppend(before, last);
        ContentsOfSubsequence(before, front);
        SubsequenceAppend(Contents(before), Contents(front), last.message);
      }
    }
  }

  /** The messages of one upload. */
  function Mine(mail: seq<Mail>, upload: nat): seq<Mail> {
    if mail == [] then []
    else Mine(mail[..|mail| - 1], upload) +
         (if mail[|mail| - 1].upload == upload then [mail[|mail| - 1]] else [])
  }

  lemma MineAppend(mail: seq<Mail>, t: Mail, upload: nat)
    ensures Mine(mail + [t], upload) == Mine(mail, upload) + (if t.upload == upload then [t] else [])
  {
    assert (mail + [t])[..|mail|] == mail;
  }

  /** The bytes of one upload. */
  function MineBytes(mail: seq<Mail>, upload: nat): Bytes {
    Payload(Contents(Mine(mail, upload)))
  }

  lemma MineBytesAppend(mail: seq<Mail>, more: seq<Mail>, upload: nat)
    requires |more| <= 1
    ensures MineBytes(mail + more, upload) == MineBytes(mail, upload) +
              (if more != [] && more[0].upload == upload && more[0].message.Packet? then more[0].message.data else [])
  {
    hide Payload, Mine, Contents;
    if more == [] {
      assert mail + more == mail;
    } else {
      assert mail + more == mail + [more[0]];
      MineAppend(mail, more[0], upload);
      assert Mine(mail, upload) + [] == Mine(mail, upload);
      ContentsAppend(Mine(mail, upload), more[0]);
      PayloadAppend(Contents(Mine(mail, upload)), more[0].message);
    }
  }

  predicate NoChunkOf(mail: seq<Mail>, upload: nat) {
    forall i :: 0 <= i < |mail| ==> !(mail[i].upload == upload && mail[i].message.Packet?)
  }

  lemma NoChunkAppend(mail: seq<Mail>, t: Mail, upload: nat)
    ensures NoChunkOf(mail + [t], upload) <==> NoChunkOf(mail, upload) && !(t.upload == upload && t.message.Packet?)
  {
    var all := mail + [t];
    assert all[|mail|] == t;
    assert forall i :: 0 <= i < |mail| ==> mail[i] == all[i];
  }

  predicate NoEmptyChunk(mail: seq<Mail>) {
    forall i :: 0 <= i < |mail| && mail[i].message.Packet? ==> mail[i].message.data != []
  }

  // ---------------------------------------------------------------- the law

  /** The update service has been served what the history says, and a restart ends its loop. */
  predicate ServedLaw(ota: Ota, done: seq<Mail>, served: seq<Delivery>, running: Bytes) {
    && ota == Served(OTA_BOOT, served, running)
    && Messages(served) == Contents(done)
    && (ota.restarted ==> served != [])
    && (served != [] ==> !Served(OTA_BOOT, served[..|served| - 1], running).restarted)
  }

  /** Everything accepted has been served, is being served, or is queued, in this order. */
  predicate AcceptedLaw(f: Flow) {
    f.accepted == f.done + WorkerMail(f.values.worker) + f.values.queue
  }

  /** Everything that arrived has been dispatched, is an event, or is about to be posted, in this order. */
  predicate ArrivedLaw(f: Flow) {
    f.arrived == f.dispatched + EventsMail(f.values.events) + HandMail(f.values)
  }

  /** An upload's bytes are accepted as they were dispatched, less what was missed of them. */
  predicate BytesLaw(f: Flow, upload: nat) {
    && (NoChunkOf(f.missed, upload) ==> MineBytes(f.accepted, upload) == MineBytes(f.dispatched, upload))
    && |MineBytes(f.dispatched, upload)| == |MineBytes(f.accepted, upload)| + |MineBytes(f.missed, upload)|
  }

  /** Only dispatching to a full queue leaves messages out. */
  ghost predicate LossLaw(f: Flow) {
    && Subsequence(f.accepted, f.dispatched)
    && |f.missed| == f.values.lost && |f.dispatched| == |f.accepted| + |f.missed|
    && (f.missed == [] ==> f.dispatched == f.accepted)
    && Subsequence(f.missed, f.dispatched)
    && forall u: nat :: BytesLaw(f, u)
  }

  predicate Sorted(mail: seq<Mail>) {
    forall i, j :: 0 <= i < j < |mail| ==> Ahead(mail[i], mail[j])
  }

  /** Uploads arrive one after the other, each with its start message first and nothing after its
      complete message. */
  predicate ShapeLaw(f: Flow) {
    && Sorted(f.arrived) && NoEmptyChunk(f.arrived)
    && forall i :: 0 <= i < |f.arrived| ==>
         f.arrived[i].upload < f.values.uploads ||
         (f.arrived[i].upload == f.values.uploads && (f.arrived[i].message.Complete? ==> !Receives(f.values.http)))
  }

  ghost predicate FlowLaw(f: Flow, running: Bytes) {
    && ServedLaw(f.values.ota, f.done, f.served, running)
    && AcceptedLaw(f) && ArrivedLaw(f) && LossLaw(f) && ShapeLaw(f)
  }

  lemma PostKeepsArrived(f: Flow, running: Bytes)
    requires ArrivedLaw(f) && EnabledValue(f.values, Post)
    ensures ArrivedLaw(NextFlow(f, Post, running))
  {
    var v := f.values;
    var next := NextFlow(f, Post, running);
    match v.http {
      case Posting(data) => EventsMailAppend(v.events, Transfer(Ticket(v.uploads, Packet(data))));
      case Ending(complete) =>
        EventsMailAppend(v.events, if complete then Transfer(Ticket(v.uploads, Complete)) else Failed);
    }
    assert next.arrived == f.dispatched + EventsMail(next.values.events) + HandMail(next.values);
  }

  lemma HandlerKeepsArrived(f: Flow, step: Step, running: Bytes)
    requires ArrivedLaw(f) && EnabledValue(f.values, step)
    requires step.Begin? || step.Acquire? || step.Receive? || step.ReceiveEnd? || step.ReceiveError?
    ensures ArrivedLaw(NextFlow(f, step, running))
  {
    var v := f.values;
    var next := NextFlow(f, step, running);
    if step.Begin? {
      EventsMailAppend(v.events, Transfer(Ticket(v.uploads + 1, Start)));
    }
    assert HandMail(v) == [];
    assert next.arrived == f.dispatched + EventsMail(next.values.events) + HandMail(next.values);
  }

  lemma StepKeepsShape(f: Flow, step: Step, running: Bytes)
    requires ShapeLaw(f) && EnabledValue(f.values, step)
    ensures ShapeLaw(NextFlow(f, step, running))
  {
    hide Handled;
    var next := NextFlow(f, step, running);
    assert next.values.uploads >= f.values.uploads;
  }

  lemma DispatchKeepsArrived(f: Flow, running: Bytes)
    requires ArrivedLaw(f) && EnabledValue(f.values, Dispatch)
    ensures ArrivedLaw(NextFlow(f, Dispatch, running))
  {
    var v := f.values;
    var next := NextFlow(f, Dispatch, running);
    var e := v.events[0];
    assert next.dispatched == f.dispatched + EventMail(e);
    assert EventsMail(v.events) == EventMail(e) + EventsMail(v.events[1..]);
    assert next.arrived == (f.dispatched + EventMail(e)) + EventsMail(v.events[1..]) + HandMail(v);
  }

  lemma DispatchKeepsAccepted(f: Flow, running: Bytes)
    requires AcceptedLaw(f) && EnabledValue(f.values, Dispatch)
    ensures AcceptedLaw(NextFlow(f, Dispatch, running))
  {
    var v := f.values;
    if v.events[0].Transfer? {
      var t := v.events[0].ticket;
      assert f.accepted + [t] == f.done + WorkerMail(v.worker) + (v.queue + [t]);
    }
  }

  lemma MessageKeepsBytes(f: Flow, g: Flow, t: Mail, upload: nat)
    requires BytesLaw(f, upload) && g.dispatched == f.dispatched + [t]
    requires || (g.accepted == f.accepted + [t] && g.missed == f.missed)
             || (g.accepted == f.accepted && g.missed == f.missed + [t])
    ensures BytesLaw(g, upload)
  {
    hide MineBytes, NoChunkOf;
    MineBytesAppend(f.dispatched, [t], upload);
    MineBytesAppend(f.accepted, [t], upload);
    MineBytesAppend(f.missed, [t], upload);
    NoChunkAppend(f.missed, t, upload);
  }

  lemma SameBytes(f: Flow, g: Flow, upload: nat)
    requires BytesLaw(f, upload) && g.dispatched == f.dispatched && g.accepted == f.accepted && g.missed == f.missed
    ensures BytesLaw(g, upload)
  {
  }

  lemma DispatchKeepsLoss(f: Flow, running: Bytes)
    requires LossLaw(f) && EnabledValue(f.values, Dispatch)
    ensures LossLaw(NextFlow(f, Dispatch, running))
  {
    hide Subsequence, BytesLaw;
    var next := NextFlow(f, Dispatch, running);
    if f.values.events[0].Transfer? {
      var t := f.values.events[0].ticket;
      SubsequenceAppend(f.accepted, f.dispatched, t);
      SubsequenceAppend(f.missed, f.dispatched, t);
      forall u: nat ensures BytesLaw(next, u) {
        MessageKeepsBytes(f, next, t, u);
      }
    } else {
      forall u: nat ensures BytesLaw(next, u) {
        SameBytes(f, next, u);
      }
    }
  }

  lemma OthersKeepLoss(f: Flow, step: Step, running: Bytes)
    requires LossLaw(f) && EnabledValue(f.values, step) && !step.Dispatch?
    ensures LossLaw(NextFlow(f, step, running))
  {
    hide Subsequence, BytesLaw, Handled;
    var next := NextFlow(f, step, running);
    forall u: nat ensures BytesLaw(next, u) {
      SameBytes(f, next, u);
    }
  }

  lemma WorkerKeepsArrived(f: Flow, step: Step, running: Bytes)
    requires ArrivedLaw(f) && EnabledValue(f.values, step) && (step.Take? || step.Serve? || step.Return?)
    ensures ArrivedLaw(NextFlow(f, step, running))
  {
    hide Handled, Served;
    if step.Return? {
      EventsMailAppend(f.values.events, BufferUsed(()));
    }
    assert NextFlow(f, step, running).arrived == f.arrived;
  }

  lemma WorkerKeepsAccepted(f: Flow, step: Step, running: Bytes)
    requires AcceptedLaw(f) && EnabledValue(f.values, step) && (step.Take? || step.Serve? || step.Return?)
    ensures AcceptedLaw(NextFlow(f, step, running))
  {
    hide Handled;
    var v := f.values;
    if step.Take? {
      assert f.done + [] + v.queue == f.done + [v.queue[0]] + v.queue[1..];
    } else if step.Serve? {
      assert f.done + [v.worker.ticket] + v.queue == (f.done + [v.worker.ticket]) + [] + v.queue;
    }
  }

  lemma ServeKeepsServed(ota: Ota, done: seq<Mail>, t: Mail, served: seq<Delivery>, p: Platform, running: Bytes)
    requires ServedLaw(ota, done, served, running) && !ota.restarted
    ensures ServedLaw(Handled(ota, t.message, running, p), done + [t], served + [Delivery(t.message, p)], running)
  {
    hide Handled, Messages, Served;
    var d := Delivery(t.message, p);
    ServedAppend(served, d, running);
    MessagesAppend(served, d);
    ContentsAppend(done, t);
    assert (served + [d])[..|served|] == served;
  }

  lemma WorkerKeepsServed(f: Flow, step: Step, running: Bytes)
    requires ServedLaw(f.values.ota, f.done, f.served, running)
    requires EnabledValue(f.values, step) && (step.Take? || step.Serve? || step.Return?)
    ensures var next := NextFlow(f, step, running); ServedLaw(next.values.ota, next.done, next.served, running)
  {
    hide Handled, ServedLaw;
    if step.Serve? {
      ServeKeepsServed(f.values.ota, f.done, f.values.worker.ticket, f.served, step.platform, running);
    }
  }

  lemma StepKeepsLaw(f: Flow, step: Step, running: Bytes)
    requires FlowLaw(f, running) && EnabledValue(f.values, step)
    ensures FlowLaw(NextFlow(f, step, running), running)
  {
    hide ServedLaw, Handled, ShapeLaw, LossLaw;
    StepKeepsShape(f, step, running);
    if !step.Dispatch? {
      OthersKeepLoss(f, step, running);
    }
    match step {
      case Post => PostKeepsArrived(f, running);
      case Dispatch =>
        DispatchKeepsArrived(f, running);
        DispatchKeepsAccepted(f, running);
        DispatchKeepsLoss(f, running);
      case Take | Serve(_) | Return =>
        WorkerKeepsArrived(f, step, running);
        WorkerKeepsAccepted(f, step, running);
        WorkerKeepsServed(f, step, running);
      case _ => HandlerKeepsArrived(f, step, running);
    }
  }

  lemma {:induction false} FlowKeepsLaw(f: Flow, steps: seq<Step>, running: Bytes)
    requires FlowLaw(f, running) && RunValue(f.values, steps, running)
    ensures FlowLaw(FinalFlow(f, steps, running), running)
    decreases steps
  {
    hide NextFlow, FlowLaw;
    if steps == [] {
    } else {
      StepKeepsLaw(f, steps[0], running);
      FlowKeepsLaw(NextFlow(f, steps[0], running), steps[1..], running);
    }
  }

  lemma ContentsOfArrival(arrived: seq<Mail>, step: Step, uploads: nat)
    ensures Contents(arrived + Addressed(step, uploads)) == Contents(arrived) + Arrival(step)
  {
  }

  lemma {:induction false} FlowLogsArrivals(f: Flow, steps: seq<Step>, running: Bytes)
    requires RunValue(f.values, steps, running)
    ensures Contents(FinalFlow(f, steps, running).arrived) == Contents(f.arrived) + Arrivals(steps)
    decreases steps
  {
    hide NextFlow, Contents, Arrival;
    if steps == [] {
      assert Contents(f.arrived) + [] == Contents(f.arrived);
    } else {
      var next := NextFlow(f, steps[0], running);
      FlowLogsArrivals(next, steps[1..], running);
      ContentsOfArrival(f.arrived, steps[0], f.values.uploads);
      assert Contents(f.arrived) + Arrival(steps[0]) + Arrivals(steps[1..]) ==
             Contents(f.arrived) + (Arrival(steps[0]) + Arrivals(steps[1..]));
    }
  }

  // ---------------------------------------------------------------- main results

  lemma LawOrders(f: Flow, running: Bytes)
    requires FlowLaw(f, running)
    ensures Subsequence(Messages(f.served), Contents(f.arrived))
    ensures f.values.lost == 0 ==> Messages(f.served) <= Contents(f.arrived)
  {
    hide Messages, Served, Subsequence, ShapeLaw, BytesLaw;
    var onTheWay := WorkerMail(f.values.worker) + f.values.queue;
    var later := EventsMail(f.values.events) + HandMail(f.values);
    assert f.accepted == f.done + onTheWay;
    assert f.arrived == f.dispatched + later;
    SubsequencePrefix(f.done, onTheWay, f.dispatched);
    SubsequenceExtend(f.done, f.dispatched, later);
    ContentsOfSubsequence(f.done, f.arrived);
    assert f.values.lost == 0 ==> f.done <= f.arrived;
  }

  predicate WholeUploads(arrived: seq<Msg>, from: nat, to: nat) {
    && 1 <= from < to <= |arrived|
    && arrived[from - 1] == Start && arrived[from].Packet? && arrived[to - 1] == Complete
    && forall i :: from <= i < to - 1 ==> arrived[i] != Complete
  }

  lemma ServedPrefixInstalls(inbox: seq<Delivery>, arrived: seq<Msg>, running: Bytes)
      returns (from: nat, to: nat)
    requires Messages(inbox) <= arrived && Served(OTA_BOOT, inbox, running).restarted
    requires inbox != [] && !Served(OTA_BOOT, inbox[..|inbox| - 1], running).restarted
    ensures WholeUploads(arrived, from, to)
    ensures PhaseOf(Served(OTA_BOOT, inbox, running).calls) == Booted(Payload(arrived[from..to]))
  {
    BootKeepsInv(OTA_BOOT, inbox, running);
    var image := PhaseOf(Served(OTA_BOOT, inbox, running).calls).image;
    from := ImageIsServedSuffix(inbox, running, image);
    to := |inbox|;
    MessagesAt(inbox);
    MessagesAt(inbox[from..]);
    assert forall i :: 0 <= i < to ==> arrived[i] == Messages(inbox)[i] == inbox[i].message;
    assert arrived[from..to] == Messages(inbox[from..]);
  }

  lemma LawInstallsWholeUploads(f: Flow, running: Bytes) returns (from: nat, to: nat)
    requires FlowLaw(f, running) && f.values.ota.restarted && f.values.lost == 0
    ensures WholeUploads(Contents(f.arrived), from, to)
    ensures PhaseOf(f.values.ota.calls) == Booted(Payload(Contents(f.arrived)[from..to]))
  {
    hide Messages, Served, Subsequence, ShapeLaw, LossLaw, Contents;
    LawOrders(f, running);
    from, to := ServedPrefixInstalls(f.served, Contents(f.arrived), running);
  }

  /** What a step of the device serves: the bytes that the worker finds at the address at that moment. */
  function StepServes(d: Device, step: Step): seq<Delivery>
    requires Enabled(d, step)
  {
    match step
    case Serve(platform) => [Delivery(Resolved(d.worker.ticket.message, d.buffers), platform)]
    case _ => []
  }

  /** Everything a run of the device serves, in order. */
  function ServedBy(d: Device, steps: seq<Step>, running: Bytes): seq<Delivery>
    requires Run(d, steps, running)
    decreases steps
  {
    if steps == [] then [] else StepServes(d, steps[0]) + ServedBy(Next(d, steps[0], running), steps[1..], running)
  }

  lemma FlowLogsStep(d: Device, f: Flow, step: Step, running: Bytes)
    requires AllReadable(d) && f.values == ValueOf(d) && Enabled(d, step) && EnabledValue(f.values, step)
    ensures NextFlow(f, step, running).served == f.served + StepServes(d, step)
  {
    hide Handled;
    if step.Serve? {
      assert f.values.worker == WorkerValue(d.worker, d.buffers);
    }
  }

  lemma {:induction false} FlowLogsServed(d: Device, f: Flow, steps: seq<Step>, running: Bytes)
    requires OwnershipInv(d) && AllReadable(d) && f.values == ValueOf(d)
    requires Run(d, steps, running) && RunValue(f.values, steps, running)
    ensures FinalFlow(f, steps, running).served == f.served + ServedBy(d, steps, running)
    decreases steps
  {
    hide Next, NextFlow, NextValue, Enabled, EnabledValue, StepServes, OwnershipInv, AllReadable, ValueOf;
    if steps == [] {
      assert f.served + [] == f.served;
    } else {
      var step, rest := steps[0], steps[1..];
      StepRefines(d, step, running);
      StepKeepsOwnership(d, step, running);
      FlowLogsStep(d, f, step, running);
      FlowLogsServed(Next(d, step, running), NextFlow(f, step, running), rest, running);
      assert f.served + StepServes(d, step) + ServedBy(Next(d, step, running), rest, running) ==
             f.served + (StepServes(d, step) + ServedBy(Next(d, step, running), rest, running));
    }
  }

  lemma FlowOfRun(buffers: seq<Bytes>, steps: seq<Step>, running: Bytes) returns (f: Flow)
    requires BuffersOk(buffers) && Run(DeviceBoot(buffers), steps, running)
    ensures var d := Final(DeviceBoot(buffers), steps, running);
      && OwnershipInv(d) && AllReadable(d) && f.values == ValueOf(d)
      && FlowLaw(f, running) && Contents(f.arrived) == Arrivals(steps)
      && f.served == ServedBy(DeviceBoot(buffers), steps, running)
  {
    hide Next, NextFlow, FlowLaw, ServedBy;
    var boot := DeviceBoot(buffers);
    BootOwnsAll(buffers);
    AddressesAreReadable(boot);
    RunKeepsOwnership(boot, steps, running);
    DeviceRefinesValues(boot, steps, running);
    assert ValueOf(boot) == VALUES_BOOT;
    BootObeysLaw(running);
    f := FinalFlow(FLOW_BOOT, steps, running);
    FlowKeepsLaw(FLOW_BOOT, steps, running);
    FlowLogsArrivals(FLOW_BOOT, steps, running);
    FlowLogsServed(boot, FLOW_BOOT, steps, running);
    assert [] + Arrivals(steps) == Arrivals(steps);
    assert [] + ServedBy(boot, steps, running) == ServedBy(boot, steps, running);
  }

  lemma BootObeysLaw(running: Bytes)
    ensures FlowLaw(FLOW_BOOT, running)
  {
  }

  /** In every interleaving, what the worker's steps serve carries the very bytes received, in the
      order received, with none added; with none left out if no message was dropped; and it is all
      that the state of the update service comes from. */
  lemma ServedInOrder(buffers: seq<Bytes>, steps: seq<Step>, running: Bytes)
    requires BuffersOk(buffers) && Run(DeviceBoot(buffers), steps, running)
    ensures var d := Final(DeviceBoot(buffers), steps, running);
      var served := ServedBy(DeviceBoot(buffers), steps, running);
      && d.ota == Served(OTA_BOOT, served, running)
      && Subsequence(Messages(served), Arrivals(steps))
      && (d.lost == 0 ==> Messages(served) <= Arrivals(steps))
  {
    hide Next, ServedBy;
    var f := FlowOfRun(buffers, steps, running);
    LawOrders(f, running);
  }

  /** In every interleaving, the bytes in flash since the update was begun are exactly the payloads
      of the packets served from the accepted header packet on, although only addresses of reused
      buffers were passed around. */
  lemma FlashIsExact(buffers: seq<Bytes>, steps: seq<Step>, running: Bytes, image: Bytes) returns (k: nat)
    requires BuffersOk(buffers) && Run(DeviceBoot(buffers), steps, running)
    requires HasImage(Final(DeviceBoot(buffers), steps, running).ota, image)
    ensures var served := ServedBy(DeviceBoot(buffers), steps, running);
      && 1 <= k < |served| && served[k].message.Packet? && served[k - 1].message == Start
      && image == Payload(Messages(served[k..]))
      && Subsequence(Messages(served), Arrivals(steps))
  {
    hide Next, Served, ServedBy;
    var f := FlowOfRun(buffers, steps, running);
    LawOrders(f, running);
    k := ImageIsServedSuffix(f.served, running, image);
  }
}
