/** Whose bytes a restart installs: those of one upload, and exactly when. */
module PipelineUpload {
  import opened OtaModel
  import opened OtaSafety
  import opened OtaInstall
  import opened OtaImage
  import opened PipelineModel
  import opened PipelineOwnership
  import opened PipelineRefinement
  import opened PipelineFlow
  import opened PipelineProgress

  // ---------------------------------------------------------------- the steps behind the messages

  /** Unfolds the run functions by one step. */
  lemma RunUnfolds(d: Device, step: Step, rest: seq<Step>, running: Bytes)
    ensures Run(d, [step] + rest, running) <==> Enabled(d, step) && Run(Next(d, step, running), rest, running)
    ensures Run(d, [step] + rest, running) ==>
              Final(d, [step] + rest, running) == Final(Next(d, step, running), rest, running)
    ensures Run(d, [], running) && Final(d, [], running) == d
  {
    hide Next, Enabled;
    assert ([step] + rest)[1..] == rest;
  }

  lemma {:induction false} RunSplits(d: Device, front: seq<Step>, back: seq<Step>, running: Bytes)
    requires Run(d, front + back, running)
    ensures Run(d, front, running) && Run(Final(d, front, running), back, running)
    decreases front
  {
    hide Next, Enabled, Run, Final;
    if front == [] {
      assert front + back == back;
      RunUnfolds(d, Step.Begin, [], running);
    } else {
      var step, rest := front[0], front[1..];
      assert front == [step] + rest && front + back == [step] + (rest + back);
      RunUnfolds(d, step, rest + back, running);
      RunUnfolds(d, step, rest, running);
      RunSplits(Next(d, step, running), rest, back, running);
    }
  }

  /** The step that produced the i-th message. */
  lemma {:induction false} Locate(steps: seq<Step>, i: nat) returns (k: nat)
    requires i < |Arrivals(steps)|
    ensures k < |steps| && |Arrivals(steps[..k])| == i && Arrival(steps[k]) == [Arrivals(steps)[i]]
    decreases steps
  {
    var n := |Arrival(steps[0])|;
    if i < n {
      k := 0;
    } else {
      var j := Locate(steps[1..], i - n);
      k := j + 1;
      assert steps[..k] == [steps[0]] + steps[1..][..j];
      ArrivalsOfTail(steps[0], steps[1..][..j]);
    }
  }

  lemma ArrivalsGrow(steps: seq<Step>, i: nat, j: nat)
    requires i <= j <= |steps|
    ensures |Arrivals(steps[..i])| <= |Arrivals(steps[..j])|
  {
    hide Arrivals;
    ArrivalsCompose(steps[..i], steps[i..j]);
    assert steps[..i] + steps[i..j] == steps[..j];
  }

  lemma ArrivalsBetween(steps: seq<Step>, b: nat, e: nat)
    requires b < |steps| && e < |steps| && |Arrivals(steps[..b])| < |Arrivals(steps[..e])|
    ensures b < e
    ensures Arrivals(steps) ==
              Arrivals(steps[..b]) + Arrival(steps[b]) + Arrivals(steps[b + 1..e]) + Arrivals(steps[e..])
    ensures Arrivals(steps[..e]) == Arrivals(steps[..b]) + Arrival(steps[b]) + Arrivals(steps[b + 1..e])
  {
    hide Arrivals;
    if e <= b {
      ArrivalsGrow(steps, e, b);
    }
    var middle := steps[b + 1..e];
    ArrivalsCompose(steps[..b], [steps[b]] + middle);
    ArrivalsOfTail(steps[b], middle);
    assert steps[..b] + ([steps[b]] + middle) == steps[..e];
    ArrivalsCompose(steps[..e], steps[e..]);
    assert steps[..e] + steps[e..] == steps;
    assert Arrivals(steps[..e]) == Arrivals(steps[..b]) + Arrival(steps[b]) + Arrivals(middle);
  }

  predicate OnlyPackets(messages: seq<Msg>) {
    forall i :: 0 <= i < |messages| ==> messages[i].Packet?
  }

  lemma HttpMoves(d: Device, step: Step, running: Bytes)
    requires Enabled(d, step) && !step.ReceiveEnd?
    ensures var next := Next(d, step, running);
      && (Receives(d.http) ==> !step.Begin? && (Receives(next.http) <==> !step.ReceiveError?))
      && (!Receives(d.http) ==> !step.ReceiveError? && (Receives(next.http) <==> step.Begin?))
  {
  }

  lemma PacketsOfTail(step: Step, rest: seq<Step>)
    requires !step.ReceiveEnd?
    ensures OnlyPackets(Arrivals([step] + rest)) <==> !step.Begin? && OnlyPackets(Arrivals(rest))
  {
    hide Arrivals;
    ArrivalsOfTail(step, rest);
    var arrived, later := Arrivals([step] + rest), Arrivals(rest);
    var n := |Arrival(step)|;
    assert n > 0 ==> arrived[0] == Arrival(step)[0];
    assert forall i :: 0 <= i < |later| ==> later[i] == arrived[n + i];
    assert forall i :: n <= i < |arrived| ==> arrived[i] == later[i - n];
  }

  /** Between two moments at which an upload receives, with no completion in between, only packets
      arrive exactly if no upload broke off. */
  lemma {:induction false} BreaksShow(d: Device, steps: seq<Step>, running: Bytes)
    requires Run(d, steps, running) && ReceiveEnd !in steps && Final(d, steps, running).http.Filling?
    ensures OnlyPackets(Arrivals(steps)) <==> Receives(d.http) && ReceiveError !in steps
    decreases steps
  {
    hide Next, Arrivals, OnlyPackets;
    if steps == [] {
      NothingArrives();
    } else {
      var step, rest := steps[0], steps[1..];
      assert steps == [step] + rest;
      HttpMoves(d, step, running);
      PacketsOfTail(step, rest);
      BreaksShow(Next(d, step, running), rest, running);
    }
  }

  lemma NothingArrives()
    ensures OnlyPackets(Arrivals([]))
  {
  }

  lemma {:induction false} NoCompletion(steps: seq<Step>)
    requires Complete !in Arrivals(steps)
    ensures ReceiveEnd !in steps
  {
    if steps == [] {
    } else {
      var step, rest := steps[0], steps[1..];
      assert steps == [step] + rest;
      assert Arrivals(steps) == Arrival(step) + Arrivals(rest);
      assert Complete in Arrival(ReceiveEnd);
      NoCompletion(rest);
    }
  }

  /** From the start of one upload to the completion of one. */
  predicate Bracket(steps: seq<Step>, b: nat, e: nat, from: nat, to: nat) {
    && b < e < |steps| && 1 <= from < to
    && steps[b] == Step.Begin && |Arrivals(steps[..b])| == from - 1
    && steps[e] == ReceiveEnd && |Arrivals(steps[..e])| == to - 1
  }

  lemma SingleUploadIff(d: Device, steps: seq<Step>, from: nat, to: nat, running: Bytes) returns (b: nat, e: nat)
    requires Run(d, steps, running) && WholeUploads(Arrivals(steps), from, to)
    ensures Bracket(steps, b, e, from, to)
    ensures OnlyPackets(Arrivals(steps)[from..to - 1]) <==> ReceiveError !in steps[b + 1..e]
  {
    hide Next, Arrivals, OnlyPackets;
    b := Locate(steps, from - 1);
    e := Locate(steps, to - 1);
    ArrivalsBetween(steps, b, e);
    var middle := steps[b + 1..e];
    assert Arrivals(steps)[from..to - 1] == Arrivals(middle);
    NoCompletionInside(Arrivals(steps), from, to, middle);
    MiddleShows(d, steps[..b], middle, steps[e + 1..], running) by {
      assert steps == steps[..b] + ([Step.Begin] + (middle + ([ReceiveEnd] + steps[e + 1..])));
    }
  }

  lemma MiddleShows(d: Device, front: seq<Step>, middle: seq<Step>, back: seq<Step>, running: Bytes)
    requires Run(d, front + ([Step.Begin] + (middle + ([ReceiveEnd] + back))), running) && ReceiveEnd !in middle
    ensures OnlyPackets(Arrivals(middle)) <==> ReceiveError !in middle
  {
    hide Run, Final, Arrivals, OnlyPackets;
    var ending := [ReceiveEnd] + back;
    RunSplits(d, front, [Step.Begin] + (middle + ending), running);
    var before := Final(d, front, running);
    RunUnfolds(before, Step.Begin, middle + ending, running);
    HttpBegun(before, running);
    var begun := Next(before, Step.Begin, running);
    RunSplits(begun, middle, ending, running);
    RunUnfolds(Final(begun, middle, running), ReceiveEnd, back, running);
    BreaksShow(begun, middle, running);
  }

  lemma HttpBegun(d: Device, running: Bytes)
    requires Enabled(d, Step.Begin)
    ensures Receives(Next(d, Step.Begin, running).http)
  {
  }

  lemma NoCompletionInside(arrived: seq<Msg>, from: nat, to: nat, middle: seq<Step>)
    requires WholeUploads(arrived, from, to) && arrived[from..to - 1] == Arrivals(middle)
    ensures ReceiveEnd !in middle
  {
    forall i | 0 <= i < |Arrivals(middle)| ensures Arrivals(middle)[i] != Complete {
      assert Arrivals(middle)[i] == arrived[from + i];
    }
    NoCompletion(middle);
  }

  /** If nothing was dropped, a device that restarts has switched to everything that arrived from one
      start message to the first complete message after it, in order, and nothing else. That is a
      single upload exactly if none broke off between that start and that completion. */
  lemma RestartInstallsWholeUploads(buffers: seq<Bytes>, steps: seq<Step>, running: Bytes)
      returns (from: nat, to: nat, b: nat, e: nat)
    requires BuffersOk(buffers) && Run(DeviceBoot(buffers), steps, running)
    requires var d := Final(DeviceBoot(buffers), steps, running); d.ota.restarted && d.lost == 0
    ensures WholeUploads(Arrivals(steps), from, to)
    ensures PhaseOf(Final(DeviceBoot(buffers), steps, running).ota.calls) ==
              Booted(Payload(Arrivals(steps)[from..to]))
    ensures Bracket(steps, b, e, from, to)
    ensures OnlyPackets(Arrivals(steps)[from..to - 1]) <==> ReceiveError !in steps[b + 1..e]
  {
    hide Next, FlowLaw, Arrivals, Contents, OnlyPackets, WholeUploads, BuffersOk, Bracket, PhaseOf, Payload;
    var f := FlowOfRun(buffers, steps, running);
    from, to := LawInstallsWholeUploads(f, running);
    b, e := SingleUploadIff(DeviceBoot(buffers), steps, from, to, running);
  }

  // ---------------------------------------------------------------- the messages of one upload

  /** The bytes that an upload receives in some steps before which `uploads` others had begun. */
  function Received(steps: seq<Step>, uploads: nat, upload: nat): Bytes {
    if steps == [] then []
    else (if steps[0].Receive? && uploads == upload then steps[0].payload else []) +
         Received(steps[1..], if steps[0].Begin? then uploads + 1 else uploads, upload)
  }

  lemma {:induction false} FlowLogsReceived(f: Flow, steps: seq<Step>, running: Bytes, upload: nat)
    requires RunValue(f.values, steps, running)
    ensures MineBytes(FinalFlow(f, steps, running).arrived, upload) ==
            MineBytes(f.arrived, upload) + Received(steps, f.values.uploads, upload)
    decreases steps
  {
    hide NextFlow, MineBytes, NextValue;
    if steps == [] {
    } else {
      var next := NextFlow(f, steps[0], running);
      MineBytesAppend(f.arrived, Addressed(steps[0], f.values.uploads), upload);
      UploadsCount(f.values, steps[0], running);
      FlowLogsReceived(next, steps[1..], running, upload);
      var here := if steps[0].Receive? && f.values.uploads == upload then steps[0].payload else [];
      assert MineBytes(next.arrived, upload) == MineBytes(f.arrived, upload) + here;
      assert MineBytes(f.arrived, upload) + here + Received(steps[1..], next.values.uploads, upload) ==
             MineBytes(f.arrived, upload) + (here + Received(steps[1..], next.values.uploads, upload));
    }
  }

  lemma UploadsCount(v: Values, step: Step, running: Bytes)
    requires EnabledValue(v, step)
    ensures NextValue(v, step, running).uploads == if step.Begin? then v.uploads + 1 else v.uploads
  {
  }

  lemma {:induction false} InWhole(part: seq<Mail>, whole: seq<Mail>, i: nat) returns (j: nat)
    requires Subsequence(part, whole) && i < |part|
    ensures j < |whole| && whole[j] == part[i]
    decreases |whole|
  {
    var front := whole[..|whole| - 1];
    if Subsequence(part, front) {
      j := InWhole(part, front, i);
    } else if i == |part| - 1 {
      j := |front|;
    } else {
      j := InWhole(part[..|part| - 1], front, i);
    }
  }

  lemma {:induction false} SubsequenceSorted(part: seq<Mail>, whole: seq<Mail>)
    requires Subsequence(part, whole) && Sorted(whole)
    ensures Sorted(part)
    decreases |whole|
  {
    if part == [] {
    } else {
      var front, last := whole[..|whole| - 1], whole[|whole| - 1];
      if Subsequence(part, front) {
        SubsequenceSorted(part, front);
      } else {
        var before := part[..|part| - 1];
        SubsequenceSorted(before, front);
        forall i: nat | i < |before| ensures Ahead(before[i], last) {
          var j := InWhole(before, front, i);
        }
        assert part == before + [last];
      }
    }
  }

  lemma {:induction false} MineJoins(front: seq<Mail>, back: seq<Mail>, upload: nat)
    ensures Mine(front + back, upload) == Mine(front, upload) + Mine(back, upload)
    decreases |back|
  {
    if back == [] {
      assert front + back == front;
    } else {
      var before, last := back[..|back| - 1], back[|back| - 1];
      MineJoins(front, before, upload);
      assert front + back == front + before + [last];
      MineAppend(front + before, last, upload);
    }
  }

  lemma {:induction false} MineOfNone(mail: seq<Mail>, upload: nat)
    requires forall i :: 0 <= i < |mail| ==> mail[i].upload != upload
    ensures Mine(mail, upload) == []
  {
    if mail == [] {
    } else {
      MineOfNone(mail[..|mail| - 1], upload);
    }
  }

  lemma {:induction false} MineOfAll(mail: seq<Mail>, upload: nat)
    requires forall i :: 0 <= i < |mail| ==> mail[i].upload == upload
    ensures Mine(mail, upload) == mail
  {
    if mail == [] {
    } else {
      MineOfAll(mail[..|mail| - 1], upload);
    }
  }

  /** In sorted mail, an upload's messages stand between its start and its complete message, and
      nothing else does. */
  lemma SortedSection(mail: seq<Mail>, k: nat, e: nat, upload: nat)
    requires Sorted(mail) && k < e < |mail|
    requires mail[k] == Ticket(upload, Start) && mail[e] == Ticket(upload, Complete)
    ensures Mine(mail, upload) == mail[k..e + 1]
    ensures forall i :: k < i < e ==> mail[i].message.Packet?
  {
    hide Mine, Sorted, Ahead;
    SortedNeighbours(mail, k, e, upload);
    MineOfNone(mail[..k], upload);
    MineOfNone(mail[e + 1..], upload);
    MineOfAll(mail[k..e + 1], upload);
    MineJoins(mail[..k], mail[k..e + 1], upload);
    MineJoins(mail[..e + 1], mail[e + 1..], upload);
    assert mail[..k] + mail[k..e + 1] == mail[..e + 1] && mail[..e + 1] + mail[e + 1..] == mail;
  }

  lemma SortedNeighbours(mail: seq<Mail>, k: nat, e: nat, upload: nat)
    requires Sorted(mail) && k < e < |mail|
    requires mail[k] == Ticket(upload, Start) && mail[e] == Ticket(upload, Complete)
    ensures forall i :: 0 <= i < k || e < i < |mail| ==> mail[i].upload != upload
    ensures forall i :: k <= i <= e ==> mail[i].upload == upload
    ensures forall i :: k < i < e ==> mail[i].message.Packet?
  {
    forall i | 0 <= i < k ensures mail[i].upload != upload {
      assert Ahead(mail[i], mail[k]);
    }
    forall i | e < i < |mail| ensures mail[i].upload != upload {
      assert Ahead(mail[e], mail[i]);
    }
    forall i | k < i < e ensures mail[i].upload == upload && mail[i].message.Packet? {
      assert Ahead(mail[k], mail[i]) && Ahead(mail[i], mail[e]);
    }
  }

  /** Nothing of an upload comes after its complete message. */
  lemma NothingAfterCompletion(front: seq<Mail>, back: seq<Mail>, c: nat, upload: nat)
    requires Sorted(front + back) && c < |front| && front[c] == Ticket(upload, Complete)
    ensures Mine(front + back, upload) == Mine(front, upload)
  {
    hide Mine;
    var mail := front + back;
    forall i | 0 <= i < |back| ensures back[i].upload != upload {
      assert Ahead(mail[c], mail[|front| + i]);
    }
    MineOfNone(back, upload);
    MineJoins(front, back, upload);
  }

  lemma {:induction false} MissedChunkHasBytes(mail: seq<Mail>, upload: nat)
    requires NoEmptyChunk(mail)
    ensures MineBytes(mail, upload) == [] <==> NoChunkOf(mail, upload)
  {
    hide MineBytes, NoChunkOf;
    if mail == [] {
      NothingYet(upload);
    } else {
      var front, last := mail[..|mail| - 1], mail[|mail| - 1];
      assert mail == front + [last];
      MissedChunkHasBytes(front, upload);
      MineBytesAppend(front, [last], upload);
      NoChunkAppend(front, last, upload);
    }
  }

  lemma {:induction false} SubsequenceHasNoEmptyChunk(part: seq<Mail>, whole: seq<Mail>)
    requires Subsequence(part, whole) && NoEmptyChunk(whole)
    ensures NoEmptyChunk(part)
  {
    forall i: nat | i < |part| && part[i].message.Packet? ensures part[i].message.data != [] {
      var j := InWhole(part, whole, i);
    }
  }

  /** Once an upload has been served from start to completion, what was served of it is what arrived
      of it, exactly if none of its chunks was missed. */
  lemma ServedWholly(f: Flow, k: nat, running: Bytes, upload: nat)
    requires FlowLaw(f, running) && k < |f.done| - 1
    requires f.done[k] == Ticket(upload, Start) && f.done[|f.done| - 1] == Ticket(upload, Complete)
    ensures Payload(Contents(f.done[k..])) == MineBytes(f.arrived, upload) <==> NoChunkOf(f.missed, upload)
    ensures forall i :: k < i < |f.done| - 1 ==> f.done[i].message.Packet?
  {
    hide Mine, Messages, Served, Subsequence, Contents, Payload, NoChunkOf;
    var e := |f.done| - 1;
    var rest := WorkerMail(f.values.worker) + f.values.queue;
    var later := EventsMail(f.values.events) + HandMail(f.values);
    assert f.accepted == f.done + rest;
    assert f.arrived == f.dispatched + later;
    SubsequenceExtend(f.accepted, f.dispatched, later);
    SubsequenceSorted(f.accepted, f.arrived);
    SortedSection(f.accepted, k, e, upload);
    assert f.accepted[k..e + 1] == f.done[k..];
    assert forall i :: k < i < e ==> f.done[i] == f.accepted[i];
    var c := InWhole(f.accepted, f.dispatched, e);
    NothingAfterCompletion(f.dispatched, later, c, upload);
    SubsequenceExtend(f.missed, f.dispatched, later);
    SubsequenceHasNoEmptyChunk(f.missed, f.arrived);
    MissedChunkHasBytes(f.missed, upload);
    assert BytesLaw(f, upload);
  }

  // ---------------------------------------------------------------- device and history side by side

  ghost predicate Matches(d: Device, f: Flow, running: Bytes) {
    PathInv(d) && AllReadable(d) && f.values == ValueOf(d) && FlowLaw(f, running)
  }

  /** The history only grows. */
  predicate Grows(f: Flow, g: Flow) {
    f.accepted <= g.accepted && f.done <= g.done && f.served <= g.served
  }

  lemma StepMatches(d: Device, f: Flow, step: Step, running: Bytes, upload: nat)
    requires Matches(d, f, running) && Enabled(d, step)
    ensures EnabledValue(f.values, step)
    ensures var g := NextFlow(f, step, running);
      && Matches(Next(d, step, running), g, running) && Grows(f, g)
      && (NoChunkOf(g.missed, upload) <==> NoChunkOf(f.missed, upload) && !Drops(d, step, upload))
  {
    hide FlowLaw, NextFlow, NextValue, Next, CountInv, OrderInv, NoChunkOf, Drops;
    StepRefines(d, step, running);
    StepKeepsPath(d, step, running);
    StepKeepsLaw(f, step, running);
    StepMisses(d, f, step, running, upload);
  }

  lemma StepMisses(d: Device, f: Flow, step: Step, running: Bytes, upload: nat)
    requires AllReadable(d) && f.values == ValueOf(d) && Enabled(d, step) && EnabledValue(f.values, step)
    ensures var g := NextFlow(f, step, running);
      Grows(f, g) && (NoChunkOf(g.missed, upload) <==> NoChunkOf(f.missed, upload) && !Drops(d, step, upload))
  {
    hide Handled, NextValue, NoChunkOf;
    if step.Dispatch? {
      assert EventReadable(d.events[0], d.buffers);
      assert f.values.events[0] == EventValue(d.events[0], d.buffers);
      if d.events[0].Transfer? {
        NoChunkAppend(f.missed, f.values.events[0].ticket, upload);
      }
    }
  }

  lemma GrowsTransitive(f: Flow, g: Flow, h: Flow)
    requires Grows(f, g) && Grows(g, h)
    ensures Grows(f, h)
  {
  }

  lemma {:induction false} RunMatches(d: Device, f: Flow, steps: seq<Step>, running: Bytes, upload: nat)
    requires Matches(d, f, running) && Run(d, steps, running)
    ensures RunValue(f.values, steps, running)
    ensures var g := FinalFlow(f, steps, running);
      && Matches(Final(d, steps, running), g, running) && Grows(f, g)
      && (NoChunkOf(g.missed, upload) <==> NoChunkOf(f.missed, upload) && Losses(d, steps, running, upload) == 0)
    decreases steps
  {
    hide Matches, NextFlow, NextValue, Next, Drops, NoChunkOf, Grows;
    if steps == [] {
      GrowsReflexive(f);
    } else {
      StepMatches(d, f, steps[0], running, upload);
      var next := NextFlow(f, steps[0], running);
      RunMatches(Next(d, steps[0], running), next, steps[1..], running, upload);
      GrowsTransitive(f, next, FinalFlow(f, steps, running));
    }
  }

  lemma GrowsReflexive(f: Flow)
    ensures Grows(f, f)
  {
  }

  lemma BootMatches(buffers: seq<Bytes>, running: Bytes)
    requires BuffersOk(buffers)
    ensures Matches(DeviceBoot(buffers), FLOW_BOOT, running)
  {
    BootOwnsAll(buffers);
    AddressesAreReadable(DeviceBoot(buffers));
    BootObeysLaw(running);
  }

  // ---------------------------------------------------------------- an upload from start to restart

  /** The update worker is about to dequeue a start message. */
  predicate TakesStart(d: Device) {
    Enabled(d, Take) && d.queue[0].message == Start
  }

  /** Serving the complete message of the upload restarts the device. */
  predicate RestartsOn(d: Device, platform: Platform, running: Bytes, upload: nat) {
    && Enabled(d, Serve(platform)) && d.worker.ticket == Ticket(upload, Complete)
    && Next(d, Serve(platform), running).ota.restarted
  }

  lemma SameMessages(done: seq<Mail>, served: seq<Delivery>, k: nat)
    requires Messages(served) == Contents(done) && k <= |done|
    ensures |served| == |done| && forall i :: 0 <= i < |done| ==> served[i].message == done[i].message
    ensures Messages(served[k..]) == Contents(done[k..])
  {
    hide Messages;
    MessagesAt(served);
    assert |Contents(done)| == |done|;
    forall i | 0 <= i < |done| ensures served[i].message == done[i].message {
      assert Messages(served)[i] == Contents(done)[i];
    }
    MessagesAt(served[k..]);
  }

  lemma ServedSince(f: Flow, g: Flow, running: Bytes)
    requires FlowLaw(f, running) && FlowLaw(g, running) && Grows(f, g)
    ensures |f.served| == |f.done| && |g.served| == |g.done|
    ensures g.values.ota == Served(f.values.ota, g.served[|f.served|..], running) && OtaInv(f.values.ota)
    ensures forall i :: 0 <= i < |g.done| ==> g.served[i].message == g.done[i].message
    ensures Messages(g.served[|f.served|..]) == Contents(g.done[|f.done|..])
  {
    hide Served, Messages, Contents, AcceptedLaw, ArrivedLaw, LossLaw, ShapeLaw, OtaInv;
    SameMessages(f.done, f.served, 0);
    SameMessages(g.done, g.served, |f.done|);
    BootIsSafe();
    BootKeepsInv(OTA_BOOT, f.served, running);
    ServedCompose(OTA_BOOT, f.served, g.served[|f.served|..], running);
    assert f.served + g.served[|f.served|..] == g.served;
  }

  /** From the moment the start message is dequeued to the moment its complete message is served. */
  lemma HistoryInstallsUpload(f: Flow, g: Flow, running: Bytes, upload: nat)
    requires FlowLaw(f, running) && FlowLaw(g, running) && Grows(f, g)
    requires f.values.worker.Ready? && f.values.queue != [] && f.values.queue[0] == Ticket(upload, Start)
    requires !f.values.ota.restarted && g.values.ota.restarted
    requires |f.done| < |g.done| && g.done[|g.done| - 1] == Ticket(upload, Complete)
    ensures NoChunkOf(g.missed, upload) ==>
              PhaseOf(g.values.ota.calls) == Booted(Unfinished(f.values.ota) + MineBytes(g.arrived, upload))
    ensures !f.values.ota.handle.Open? ==>
              (PhaseOf(g.values.ota.calls) == Booted(MineBytes(g.arrived, upload)) <==> NoChunkOf(g.missed, upload))
    ensures f.values.ota.handle.Open? ==> Unfinished(f.values.ota) != []
  {
    hide Served, Messages, Mine, ArrivedLaw, LossLaw, ShapeLaw, ServedLaw, PhaseOf, Payload, OtaInv, NoChunkOf;
    var k := |f.done|;
    assert f.accepted == f.done + [] + f.values.queue;
    assert f.accepted[k] == Ticket(upload, Start);
    assert g.done <= g.accepted && g.done[k] == g.accepted[k] == f.accepted[k];
    ServedWholly(g, k, running, upload);
    ServedSince(f, g, running);
    var inbox := g.served[k..];
    assert inbox[0].message == Start && inbox[1..][|inbox| - 2].message == Complete;
    assert forall i :: 0 <= i < |inbox| - 2 ==> inbox[1..][i].message == g.done[k + 1 + i].message;
    AttemptInstallsUpload(f.values.ota, inbox, running);
    OpenImageHasBytes(f.values.ota);
    assert [] + Payload(Messages(inbox)) == Payload(Messages(inbox));
  }

  lemma StartIsNext(d: Device, f: Flow, running: Bytes)
    requires Matches(d, f, running) && TakesStart(d)
    ensures f.values.worker.Ready? && f.values.queue != [] && f.values.queue[0] == Ticket(d.queue[0].upload, Start)
    ensures f.values.ota == d.ota && f.values.uploads == d.uploads
    ensures PathInv(d)
  {
    assert f.values.queue[0] == TicketValue(d.queue[0], d.buffers);
  }

  lemma CompletionMatches(d: Device, g: Flow, platform: Platform, running: Bytes, upload: nat)
    requires Matches(d, g, running) && RestartsOn(d, platform, running, upload)
    ensures EnabledValue(g.values, Serve(platform))
    ensures var h := NextFlow(g, Serve(platform), running);
      && Matches(Next(d, Serve(platform), running), h, running) && Grows(g, h)
      && h.done == g.done + [Ticket(upload, Complete)] && h.arrived == g.arrived
      && h.values.ota == Next(d, Serve(platform), running).ota
      && (NoChunkOf(g.missed, upload) <==> NoChunkOf(h.missed, upload))
  {
    hide FlowLaw, NextValue, PathInv, NoChunkOf, Handled;
    StepMatches(d, g, Serve(platform), running, upload);
    assert g.values.worker == WorkerValue(d.worker, d.buffers);
    assert g.values.worker.ticket == Ticket(upload, Complete);
  }

  /** In every interleaving, for an upload whose completion restarts the device, however many messages
      of other uploads were dropped. If none of its own chunks was dropped before the worker dequeued
      its start message, the image is whatever was being written at that moment, followed by exactly
      the bytes the upload received; so it is the upload itself if and only if no image was being
      written. And if none was, it is the upload itself if and only if none of its chunks was dropped. */
  lemma UploadInstallsItself(buffers: seq<Bytes>, front: seq<Step>, back: seq<Step>, platform: Platform, running: Bytes)
    requires BuffersOk(buffers) && Run(DeviceBoot(buffers), front, running)
    requires TakesStart(Final(DeviceBoot(buffers), front, running))
    requires var d := Final(DeviceBoot(buffers), front, running);
      && Run(Next(d, Take, running), back, running)
      && RestartsOn(Final(Next(d, Take, running), back, running), platform, running, d.queue[0].upload)
    ensures var d := Final(DeviceBoot(buffers), front, running);
      var upload := d.queue[0].upload;
      var phase := PhaseOf(Next(Final(Next(d, Take, running), back, running), Serve(platform), running).ota.calls);
      var own := Received(front, 0, upload) + Received(back, d.uploads, upload);
      var whole := Losses(DeviceBoot(buffers), front, running, upload) == 0;
      && (whole ==> phase == Booted(Unfinished(d.ota) + own))
      && (whole ==> (phase == Booted(own) <==> !d.ota.handle.Open?))
      && (!d.ota.handle.Open? ==> (phase == Booted(own) <==> whole))
  {
    hide Next, NextFlow, NextValue, Matches, MineBytes, FlowLaw, Received, PathInv, BuffersOk;
    var boot := DeviceBoot(buffers);
    var d := Final(boot, front, running);
    var upload := d.queue[0].upload;
    BootMatches(buffers, running);
    RunMatches(boot, FLOW_BOOT, front, running, upload);
    FlowLogsReceived(FLOW_BOOT, front, running, upload);
    var f := FinalFlow(FLOW_BOOT, front, running);
    StartIsNext(d, f, running);
    StepMatches(d, f, Take, running, upload);
    NoLossOnceStarted(d, back, running);
    var taken := NextFlow(f, Take, running);
    TakeAddsNothing(f, running);
    var started := Next(d, Take, running);
    RunMatches(started, taken, back, running, upload);
    FlowLogsReceived(taken, back, running, upload);
    var g := FinalFlow(taken, back, running);
    CompletionMatches(Final(started, back, running), g, platform, running, upload);
    var h := NextFlow(g, Serve(platform), running);
    GrowsTransitive(f, taken, g);
    GrowsTransitive(f, g, h);
    MatchingLaws(d, f, running);
    MatchingLaws(Next(Final(started, back, running), Serve(platform), running), h, running);
    HistoryInstallsUpload(f, h, running, upload);
    NothingYet(upload);
    PrefixShows(Unfinished(d.ota), MineBytes(h.arrived, upload));
  }

  lemma PrefixShows(front: Bytes, back: Bytes)
    ensures front + back == back <==> front == []
  {
    assert |front + back| == |front| + |back|;
  }

  lemma MatchingLaws(d: Device, f: Flow, running: Bytes)
    requires Matches(d, f, running)
    ensures FlowLaw(f, running)
  {
  }

  lemma TakeAddsNothing(f: Flow, running: Bytes)
    requires EnabledValue(f.values, Take)
    ensures var g := NextFlow(f, Take, running);
      g.arrived == f.arrived && g.done == f.done && g.values.uploads == f.values.uploads
  {
    assert f.arrived + [] == f.arrived;
  }

  lemma NothingYet(upload: nat)
    ensures MineBytes(FLOW_BOOT.arrived, upload) == [] && NoChunkOf(FLOW_BOOT.missed, upload)
    ensures forall b: Bytes :: [] + b == b
  {
  }
}
