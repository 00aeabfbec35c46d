/** That the upload path does its work: every acceptable file can be uploaded and installed, and what
    becomes of files that break off or meet a slow worker. */
module PipelineDelivery {
  import opened OtaModel
  import opened OtaSafety
  import opened OtaInstall
  import opened PipelineModel
  import opened PipelineOwnership
  import opened PipelineRefinement
  import opened PipelineFlow
  import opened PipelineProgress

  predicate Leads(v: Values, steps: seq<Step>, w: Values, running: Bytes) {
    RunValue(v, steps, running) && FinalValue(v, steps, running) == w
  }

  lemma OneStep(v: Values, step: Step, running: Bytes)
    requires EnabledValue(v, step)
    ensures Leads(v, [step], NextValue(v, step, running), running)
  {
    var w := NextValue(v, step, running);
    assert [step][1..] == [];
    assert RunValue(w, [], running) && FinalValue(w, [], running) == w;
  }

  lemma {:induction false} Chain(u: Values, front: seq<Step>, v: Values, back: seq<Step>, w: Values, running: Bytes)
    requires Leads(u, front, v, running) && Leads(v, back, w, running)
    ensures Leads(u, front + back, w, running)
    ensures Arrivals(front + back) == Arrivals(front) + Arrivals(back)
    decreases front
  {
    hide NextValue, Arrivals;
    ArrivalsCompose(front, back);
    if front == [] {
      assert front + back == back;
    } else {
      Chain(NextValue(u, front[0], running), front[1..], v, back, w, running);
      assert (front + back)[0] == front[0] && (front + back)[1..] == front[1..] + back;
    }
  }

  lemma TwoSteps(v: Values, a: Step, b: Step, running: Bytes)
    requires EnabledValue(v, a) && EnabledValue(NextValue(v, a, running), b)
    ensures Leads(v, [a, b], NextValue(NextValue(v, a, running), b, running), running)
  {
    hide NextValue;
    var w := NextValue(v, a, running);
    OneStep(v, a, running);
    OneStep(w, b, running);
    Chain(v, [a], w, [b], NextValue(w, b, running), running);
    assert [a] + [b] == [a, b];
  }

  /** What the value machine can do, a booted device can. */
  lemma DeviceLeads(buffers: seq<Bytes>, steps: seq<Step>, end: Values, running: Bytes)
    requires BuffersOk(buffers) && Leads(VALUES_BOOT, steps, end, running)
    ensures Run(DeviceBoot(buffers), steps, running)
    ensures var d := Final(DeviceBoot(buffers), steps, running); AllReadable(d) && ValueOf(d) == end
  {
    hide NextValue, Next;
    var boot := DeviceBoot(buffers);
    BootOwnsAll(buffers);
    AddressesAreReadable(boot);
    assert ValueOf(boot) == VALUES_BOOT;
    DeviceRefinesValues(boot, steps, running);
  }

  // ---------------------------------------------------------------- pieces of a run

  /** Nothing is in flight. */
  predicate Quiet(v: Values) {
    v.events == [] && v.queue == [] && v.worker.Ready? && v.pool <= BUFFERS && !v.ota.restarted
  }

  /** A message at the head of an otherwise empty path, served. */
  lemma MessageIsServed(v: Values, m: Msg, p: Platform, running: Bytes)
    requires Quiet(v.(events := [])) && v.events == [Transfer(Ticket(v.uploads, m))]
    ensures Leads(v, [Dispatch, Take, Serve(p)],
                  v.(events := [], ota := Handled(v.ota, m, running, p),
                     worker := if m.Packet? then Returning(()) else Ready), running)
    ensures Arrivals([Dispatch, Take, Serve(p)]) == []
  {
    hide Handled;
    var taken := v.(events := [], worker := Working(Ticket(v.uploads, m)));
    TwoSteps(v, Dispatch, Take, running);
    OneStep(taken, Serve(p), running);
    Chain(v, [Dispatch, Take], taken, [Serve(p)], NextValue(taken, Serve(p), running), running);
    assert [Dispatch, Take] + [Serve(p)] == [Dispatch, Take, Serve(p)];
    NoArrivals([Dispatch, Take, Serve(p)]);
  }

  lemma ChunkIsReceived(v: Values, data: Bytes, running: Bytes)
    requires Quiet(v) && v.http.Waiting? && v.pool > 0 && 0 < |data| <= CHUNK_SIZE
    ensures Leads(v, [Acquire, Receive(data), Post],
                  v.(pool := v.pool - 1, events := [Transfer(Ticket(v.uploads, Packet(data)))]), running)
    ensures Arrivals([Acquire, Receive(data), Post]) == [Packet(data)]
  {
    var ready := v.(pool := v.pool - 1, http := Posting(data));
    TwoSteps(v, Acquire, Receive(data), running);
    OneStep(ready, Post, running);
    Chain(v, [Acquire, Receive(data)], ready, [Post], NextValue(ready, Post, running), running);
    assert [Acquire, Receive(data)] + [Post] == [Acquire, Receive(data), Post];
    ReceiveArrives(data);
  }

  lemma BufferComesBack(v: Values, running: Bytes)
    requires Quiet(v) && v.pool > 0
    ensures Leads(v.(pool := v.pool - 1, worker := Returning(())), [Return, Dispatch], v, running)
    ensures Arrivals([Return, Dispatch]) == []
  {
    TwoSteps(v.(pool := v.pool - 1, worker := Returning(())), Return, Dispatch, running);
    NoArrivals([Return, Dispatch]);
  }

  lemma OnlyCompletionRestarts(ota: Ota, m: Msg, p: Platform, running: Bytes)
    requires !ota.restarted && m != Complete
    ensures !Handled(ota, m, running, p).restarted
  {
  }

  /** One chunk goes once around the ring. */
  lemma ChunkPasses(v: Values, data: Bytes, p: Platform, running: Bytes) returns (steps: seq<Step>)
    requires Quiet(v) && v.http.Waiting? && v.pool > 0 && 0 < |data| <= CHUNK_SIZE
    ensures Leads(v, steps, v.(ota := Handled(v.ota, Packet(data), running, p)), running)
    ensures Arrivals(steps) == [Packet(data)]
  {
    hide Handled, NextValue, Arrivals;
    var sent := v.(pool := v.pool - 1, events := [Transfer(Ticket(v.uploads, Packet(data)))]);
    var after := v.(ota := Handled(v.ota, Packet(data), running, p));
    var served := after.(pool := v.pool - 1, worker := Returning(()));
    OnlyCompletionRestarts(v.ota, Packet(data), p, running);
    ChunkIsReceived(v, data, running);
    MessageIsServed(sent, Packet(data), p, running);
    BufferComesBack(after, running);
    var front := [Acquire, Receive(data), Post];
    var middle := [Dispatch, Take, Serve(p)];
    Chain(v, front, sent, middle, served, running);
    Chain(v, front + middle, served, [Return, Dispatch], after, running);
    steps := front + middle + [Return, Dispatch];
  }

  lemma ReceiveArrives(data: Bytes)
    ensures Arrivals([Acquire, Receive(data), Post]) == [Packet(data)]
  {
    assert [Acquire, Receive(data), Post][1..] == [Receive(data), Post];
    assert [Receive(data), Post][1..] == [Post];
    NoArrivals([Post]);
  }

  function Packets(chunks: seq<Bytes>): seq<Msg> {
    seq(|chunks|, i requires 0 <= i < |chunks| => Packet(chunks[i]))
  }

  predicate ChunksFit(chunks: seq<Bytes>) {
    forall i :: 0 <= i < |chunks| ==> 0 < |chunks[i]| <= 1024
  }

  /** What the update service makes of some messages that all meet the same answers. */
  function ServedAll(ota: Ota, messages: seq<Msg>, p: Platform, running: Bytes): Ota {
    Served(ota, Deliveries(messages, p), running)
  }

  lemma ServedFirst(ota: Ota, m: Msg, rest: seq<Msg>, p: Platform, running: Bytes)
    requires !ota.restarted
    ensures ServedAll(ota, [m] + rest, p, running) == ServedAll(Handled(ota, m, running, p), rest, p, running)
  {
    assert Deliveries([m] + rest, p)[1..] == Deliveries(rest, p);
  }

  lemma ServedJoin(ota: Ota, front: seq<Msg>, back: seq<Msg>, p: Platform, running: Bytes)
    ensures ServedAll(ota, front + back, p, running) == ServedAll(ServedAll(ota, front, p, running), back, p, running)
  {
    ServedCompose(ota, Deliveries(front, p), Deliveries(back, p), running);
    DeliveriesJoin(front, back, p);
  }

  lemma ServedSingle(ota: Ota, m: Msg, p: Platform, running: Bytes)
    requires !ota.restarted
    ensures ServedAll(ota, [m], p, running) == Handled(ota, m, running, p)
  {
    ServedFirst(ota, m, [], p, running);
    assert [m] + [] == [m];
  }

  /** Any number of chunks, one after the other. */
  lemma {:induction false} ChunksPass(v: Values, chunks: seq<Bytes>, p: Platform, running: Bytes)
      returns (steps: seq<Step>)
    requires Quiet(v) && v.http.Waiting? && v.pool > 0 && ChunksFit(chunks)
    ensures var after := v.(ota := ServedAll(v.ota, Packets(chunks), p, running));
      Leads(v, steps, after, running) && Quiet(after)
    ensures Arrivals(steps) == Packets(chunks)
    decreases chunks
  {
    hide Handled, NextValue;
    if chunks == [] {
      steps := [];
    } else {
      var next := v.(ota := Handled(v.ota, Packet(chunks[0]), running, p));
      OnlyCompletionRestarts(v.ota, Packet(chunks[0]), p, running);
      var rest := Packets(chunks[1..]);
      assert Packets(chunks) == [Packet(chunks[0])] + rest;
      ServedFirst(v.ota, Packet(chunks[0]), rest, p, running);
      var front := ChunkPasses(v, chunks[0], p, running);
      var back := ChunksPass(next, chunks[1..], p, running);
      Chain(v, front, next, back, v.(ota := ServedAll(next.ota, rest, p, running)), running);
      steps := front + back;
    }
  }

  const OPENING := [Step.Begin]
  const CLOSING := [Acquire, ReceiveEnd, Post]
  const BREAKING := [Acquire, ReceiveError, Post, Dispatch]

  lemma FramesArrive()
    ensures Arrivals(OPENING) == [Start] && Arrivals(CLOSING) == [Complete] && Arrivals(BREAKING) == []
  {
    assert OPENING[1..] == [] && CLOSING[1..] == [ReceiveEnd, Post] && [ReceiveEnd, Post][1..] == [Post];
    NoArrivals([Post]);
    NoArrivals(BREAKING);
  }

  /** An upload starts, and the update service is told. */
  lemma UploadBegins(v: Values, p: Platform, running: Bytes) returns (steps: seq<Step>)
    requires Quiet(v) && v.http.NoUpload?
    ensures var after := v.(http := Waiting, uploads := v.uploads + 1, ota := Handled(v.ota, Start, running, p));
      Leads(v, steps, after, running) && Quiet(after)
    ensures Arrivals(steps) == [Start] && ReceiveError !in steps && Ends(steps) == 0
  {
    hide Handled;
    var begun := v.(http := Waiting, uploads := v.uploads + 1, events := [Transfer(Ticket(v.uploads + 1, Start))]);
    OneStep(v, Step.Begin, running);
    assert [] + [Transfer(Ticket(v.uploads + 1, Start))] == begun.events;
    assert NextValue(v, Step.Begin, running) == begun;
    MessageIsServed(begun, Start, p, running);
    OnlyCompletionRestarts(v.ota, Start, p, running);
    var after := begun.(events := [], ota := Handled(v.ota, Start, running, p));
    Chain(v, OPENING, begun, [Dispatch, Take, Serve(p)], after, running);
    FramesArrive();
    steps := OPENING + [Dispatch, Take, Serve(p)];
    NoEnds(steps);
  }

  lemma UploadCompletes(v: Values, p: Platform, running: Bytes) returns (steps: seq<Step>, end: Values)
    requires Quiet(v) && v.http.Waiting? && v.pool > 0
    ensures Leads(v, steps, end, running) && end.ota == Handled(v.ota, Complete, running, p)
    ensures Arrivals(steps) == [Complete]
  {
    hide Handled;
    var ended := v.(pool := v.pool - 1, http := Ending(true));
    var sent := v.(pool := v.pool - 1, http := NoUpload, events := [Transfer(Ticket(v.uploads, Complete))]);
    TwoSteps(v, Acquire, ReceiveEnd, running);
    OneStep(ended, Post, running);
    assert NextValue(ended, Post, running) == sent;
    Chain(v, [Acquire, ReceiveEnd], ended, [Post], sent, running);
    assert [Acquire, ReceiveEnd] + [Post] == CLOSING;
    MessageIsServed(sent, Complete, p, running);
    end := sent.(events := [], ota := Handled(v.ota, Complete, running, p));
    Chain(v, CLOSING, sent, [Dispatch, Take, Serve(p)], end, running);
    FramesArrive();
    steps := CLOSING + [Dispatch, Take, Serve(p)];
  }

  /** An upload breaks off: its failed event reaches the event loop, and nobody else. */
  lemma UploadBreaksOff(v: Values, running: Bytes)
    requires Quiet(v) && v.http.Waiting? && v.pool > 0
    ensures var after := v.(pool := v.pool - 1, http := NoUpload);
      Leads(v, BREAKING, after, running) && Quiet(after)
    ensures Arrivals(BREAKING) == [] && Ends(BREAKING) == 1
  {
    var ended := v.(pool := v.pool - 1, http := Ending(false));
    TwoSteps(v, Acquire, ReceiveError, running);
    TwoSteps(ended, Post, Dispatch, running);
    Chain(v, [Acquire, ReceiveError], ended, [Post, Dispatch], v.(pool := v.pool - 1, http := NoUpload), running);
    assert [Acquire, ReceiveError] + [Post, Dispatch] == BREAKING;
    FramesArrive();
    NoEnds([Post, Dispatch]);
    assert BREAKING[1..] == [ReceiveError, Post, Dispatch] && BREAKING[1..][1..] == [Post, Dispatch];
  }

  lemma {:induction false} NoEnds(steps: seq<Step>)
    requires forall i :: 0 <= i < |steps| ==> !steps[i].ReceiveEnd? && !steps[i].ReceiveError?
    ensures Ends(steps) == 0
  {
    if steps == [] {
    } else {
      NoEnds(steps[1..]);
    }
  }

  // ---------------------------------------------------------------- a file is installed

  /** The start message and the chunks of one upload. */
  lemma UploadPasses(v: Values, chunks: seq<Bytes>, p: Platform, running: Bytes)
      returns (steps: seq<Step>, after: Values)
    requires Quiet(v) && v.http.NoUpload? && v.pool > 0 && ChunksFit(chunks)
    ensures Leads(v, steps, after, running) && Quiet(after) && after.http.Waiting? && after.pool == v.pool
    ensures after.ota == ServedAll(v.ota, [Start] + Packets(chunks), p, running)
    ensures Arrivals(steps) == [Start] + Packets(chunks)
  {
    hide Handled, NextValue, Arrivals;
    var started := v.(http := Waiting, uploads := v.uploads + 1, ota := Handled(v.ota, Start, running, p));
    var front := UploadBegins(v, p, running);
    var back := ChunksPass(started, chunks, p, running);
    after := started.(ota := ServedAll(started.ota, Packets(chunks), p, running));
    Chain(v, front, started, back, after, running);
    ServedFirst(v.ota, Start, Packets(chunks), p, running);
    steps := front + back;
  }

  /** The messages of n uploads that break off before their first byte. */
  function Starts(n: nat): seq<Msg> {
    seq(n, i => Start)
  }

  /** An upload that breaks off without a byte. */
  lemma EmptyUpload(v: Values, p: Platform, running: Bytes) returns (steps: seq<Step>, after: Values)
    requires Quiet(v) && v.http.NoUpload? && v.pool > 0
    ensures Leads(v, steps, after, running) && Ends(steps) == 1 && Arrivals(steps) == [Start]
    ensures Quiet(after) && after.http.NoUpload? && after.pool == v.pool - 1 && after.uploads == v.uploads + 1
    ensures after.ota == Handled(v.ota, Start, running, p)
  {
    hide NextValue, Handled, Quiet, Arrivals;
    var front := UploadBegins(v, p, running);
    var begun := v.(http := Waiting, uploads := v.uploads + 1, ota := Handled(v.ota, Start, running, p));
    UploadBreaksOff(begun, running);
    after := begun.(pool := v.pool - 1, http := NoUpload);
    Chain(v, front, begun, BREAKING, after, running);
    steps := front + BREAKING;
    EndsJoin(front, BREAKING);
  }

  lemma {:induction false} EndsJoin(front: seq<Step>, back: seq<Step>)
    ensures Ends(front + back) == Ends(front) + Ends(back)
  {
    if front == [] {
      assert front + back == back;
    } else {
      EndsJoin(front[1..], back);
      assert (front + back)[1..] == front[1..] + back;
    }
  }

  lemma StartAcceptsNothing(ota: Ota, p: Platform, running: Bytes)
    requires OtaInv(ota) && !ota.checked && !ota.restarted
    ensures var next := Handled(ota, Start, running, p); OtaInv(next) && !next.checked && !next.restarted
  {
    MessageKeepsInv(ota, Start, running, p);
  }

  lemma {:induction false} EmptyUploads(v: Values, n: nat, p: Platform, running: Bytes)
      returns (steps: seq<Step>, after: Values)
    requires Quiet(v) && v.http.NoUpload? && v.pool >= n && OtaInv(v.ota) && !v.ota.checked
    ensures Leads(v, steps, after, running) && Ends(steps) == n && Arrivals(steps) == Starts(n)
    ensures Quiet(after) && after.http.NoUpload? && after.pool == v.pool - n && after.uploads == v.uploads + n
    ensures OtaInv(after.ota) && !after.ota.checked
    decreases n
  {
    hide NextValue, Handled, OtaInv;
    if n == 0 {
      steps, after := [], v;
    } else {
      var first, next := EmptyUpload(v, p, running);
      StartAcceptsNothing(v.ota, p, running);
      var rest;
      rest, after := EmptyUploads(next, n - 1, p, running);
      Chain(v, first, next, rest, after, running);
      EndsJoin(first, rest);
      steps := first + rest;
      assert [Start] + Starts(n - 1) == Starts(n);
    }
  }

  /** Every file whose first chunk passes the header check can be installed, at boot or after uploads
      that broke off before their first byte: there is a run of a booted device on which these fail
      and which then receives the file in the given chunks, however many there are, and restarts
      having switched to exactly these bytes. */
  lemma FileCanBeInstalled(buffers: seq<Bytes>, failed: nat, chunks: seq<Bytes>, p: Platform, running: Bytes)
      returns (front: seq<Step>, steps: seq<Step>)
    requires BuffersOk(buffers) && ChunksFit(chunks) && AllOk(p) && failed <= 2
    requires chunks != [] && Acceptable(chunks[0], running, p)
    ensures Run(DeviceBoot(buffers), front + steps, running)
    ensures Ends(front) == failed && Arrivals(front) == Starts(failed)
    ensures Arrivals(steps) == [Start] + Packets(chunks) + [Complete]
    ensures PhaseOf(Final(DeviceBoot(buffers), front + steps, running).ota.calls) == Booted(Payload(Packets(chunks)))
  {
    hide NextValue, Handled, Next, Arrivals, Acceptable, OtaInv, PhaseOf, Payload, ServedAll;
    BootIsSafe();
    var ready, written, end: Values;
    var opening, closing: seq<Step>;
    front, ready := EmptyUploads(VALUES_BOOT, failed, p, running);
    opening, written := UploadPasses(ready, chunks, p, running);
    closing, end := UploadCompletes(written, p, running);
    Chain(ready, opening, written, closing, end, running);
    steps := opening + closing;
    Chain(VALUES_BOOT, front, ready, steps, end, running);
    DeviceLeads(buffers, front + steps, end, running);
    var sent := [Start] + Packets(chunks);
    CompletionIsServed(ready.ota, sent, p, running);
    PacketsAreInstalled(ready.ota, chunks, [], p, running);
    assert Packets(chunks) + [] == Packets(chunks);
  }

  lemma CompletionIsServed(ota: Ota, sent: seq<Msg>, p: Platform, running: Bytes)
    requires !ServedAll(ota, sent, p, running).restarted
    ensures Handled(ServedAll(ota, sent, p, running), Complete, running, p) ==
            ServedAll(ota, sent + [Complete], p, running)
  {
    hide Handled;
    ServedJoin(ota, sent, [Complete], p, running);
    ServedSingle(ServedAll(ota, sent, p, running), Complete, p, running);
  }

  /** What is served after an accepted first packet is installed. */
  lemma PacketsAreInstalled(ota: Ota, chunks: seq<Bytes>, more: seq<Msg>, p: Platform, running: Bytes)
    requires OtaInv(ota) && !ota.checked && !ota.restarted
    requires AllOk(p) && chunks != [] && Acceptable(chunks[0], running, p)
    requires forall k :: 0 <= k < |more| ==> more[k] != Complete
    ensures var messages := [Start] + (Packets(chunks) + more) + [Complete];
      PhaseOf(ServedAll(ota, messages, p, running).calls) == Booted(Payload(Packets(chunks) + more))
  {
    hide Served, PhaseOf, Acceptable, Payload, Deliveries, OtaInv;
    var rest := Packets(chunks[1..]) + more;
    UploadIsInstalled(ota, chunks[0], rest, running, p);
    FirstOfPackets(chunks, more);
    Framed(Start, Packet(chunks[0]), rest, Complete);
  }

  lemma Framed(start: Msg, first: Msg, rest: seq<Msg>, end: Msg)
    ensures [start, first] + rest + [end] == [start] + ([first] + rest) + [end]
  {
  }

  lemma FirstOfPackets(chunks: seq<Bytes>, more: seq<Msg>)
    requires chunks != []
    ensures Packets(chunks) + more == [Packet(chunks[0])] + (Packets(chunks[1..]) + more)
    ensures Payload(Packets(chunks) + more) == chunks[0] + Payload(Packets(chunks[1..]) + more)
  {
    assert (Packets(chunks) + more)[1..] == Packets(chunks[1..]) + more;
  }

  // ---------------------------------------------------------------- uploads that break off

  /** An upload of which only some chunks arrive is not dropped: a booted device on which it breaks
      off, and on which a second file is then uploaded, installs the two joined. */
  lemma BrokenUploadIsInstalled(
      buffers: seq<Bytes>, broken: seq<Bytes>, second: seq<Bytes>, p: Platform, running: Bytes)
      returns (front: seq<Step>, back: seq<Step>)
    requires BuffersOk(buffers) && ChunksFit(broken) && ChunksFit(second) && AllOk(p)
    requires broken != [] && Acceptable(broken[0], running, p)
    ensures Arrivals(front) == [Start] + Packets(broken)
    ensures Arrivals(back) == [Start] + Packets(second) + [Complete]
    ensures Run(DeviceBoot(buffers), front + BREAKING + back, running)
    ensures PhaseOf(Final(DeviceBoot(buffers), front + BREAKING + back, running).ota.calls) ==
              Booted(Payload(Packets(broken)) + Payload(Packets(second)))
    ensures second != [] ==> var image := Payload(Packets(broken)) + Payload(Packets(second));
      image != Payload(Packets(broken)) && image != Payload(Packets(second))
  {
    hide NextValue, Handled, Next, Arrivals, Acceptable, ServedAll, PhaseOf, Payload, BuffersOk, ChunksFit;
    ChunksHoldBytes(broken);
    ChunksHoldBytes(second);
    var stuck: Values;
    var end: Values;
    front, stuck := UploadPasses(VALUES_BOOT, broken, p, running);
    UploadBreaksOff(stuck, running);
    var failed := stuck.(pool := stuck.pool - 1, http := NoUpload);
    Chain(VALUES_BOOT, front, stuck, BREAKING, failed, running);
    var again, written := UploadPasses(failed, second, p, running);
    var last: seq<Step>;
    last, end := UploadCompletes(written, p, running);
    Chain(failed, again, written, last, end, running);
    back := again + last;
    Chain(VALUES_BOOT, front + BREAKING, failed, back, end, running);
    DeviceLeads(buffers, front + BREAKING + back, end, running);
    BothAreServed(broken, second, p, running);
  }

  lemma ChunksHoldBytes(chunks: seq<Bytes>)
    requires ChunksFit(chunks)
    ensures chunks != [] ==> |Payload(Packets(chunks))| > 0
  {
    if chunks != [] {
      FirstOfPackets(chunks, []);
      assert Packets(chunks) + [] == Packets(chunks);
    }
  }

  lemma BothAreServed(broken: seq<Bytes>, second: seq<Bytes>, p: Platform, running: Bytes)
    requires AllOk(p) && broken != [] && Acceptable(broken[0], running, p)
    ensures var one, two := [Start] + Packets(broken), [Start] + Packets(second);
      var written := ServedAll(ServedAll(OTA_BOOT, one, p, running), two, p, running);
      !written.restarted ==>
        PhaseOf(Handled(written, Complete, running, p).calls) ==
          Booted(Payload(Packets(broken)) + Payload(Packets(second)))
  {
    hide Handled, ServedAll, Acceptable, PhaseOf, Payload;
    var one, two := [Start] + Packets(broken), [Start] + Packets(second);
    ServedJoin(OTA_BOOT, one, two, p, running);
    if !ServedAll(OTA_BOOT, one + two, p, running).restarted {
      CompletionIsServed(OTA_BOOT, one + two, p, running);
      BootIsSafe();
      PacketsAreInstalled(OTA_BOOT, broken, two, p, running);
      assert one + two + [Complete] == [Start] + (Packets(broken) + two) + [Complete];
      PayloadOfBoth(broken, second);
    }
  }

  lemma {:induction false} PayloadJoins(front: seq<Msg>, back: seq<Msg>)
    ensures Payload(front + back) == Payload(front) + Payload(back)
  {
    if front == [] {
      assert front + back == back;
    } else {
      PayloadJoins(front[1..], back);
      assert (front + back)[1..] == front[1..] + back;
    }
  }

  lemma PayloadOfBoth(broken: seq<Bytes>, second: seq<Bytes>)
    ensures Payload(Packets(broken) + ([Start] + Packets(second))) ==
            Payload(Packets(broken)) + Payload(Packets(second))
  {
    PayloadJoins(Packets(broken), [Start] + Packets(second));
    assert ([Start] + Packets(second))[1..] == Packets(second);
  }

  /** Three uploads can end in one boot, and then a fourth waits for a buffer that never comes. */
  lemma FourthUploadIsStuck(buffers: seq<Bytes>, p: Platform, running: Bytes) returns (steps: seq<Step>)
    requires BuffersOk(buffers)
    ensures Run(DeviceBoot(buffers), steps, running) && Ends(steps) == 3
    ensures var d := Final(DeviceBoot(buffers), steps, running);
      && d.http.Waiting? && d.uploads == 4 && Live(d, One()) == 0 && !d.ota.restarted
      && forall more :: Run(d, more, running) ==> !Enabled(Final(d, more, running), Acquire)
  {
    hide NextValue, Next, Live, Handled, OtaInv;
    BootIsSafe();
    var three, v := EmptyUploads(VALUES_BOOT, 3, p, running);
    var four := UploadBegins(v, p, running);
    var end := v.(http := Waiting, uploads := v.uploads + 1, ota := Handled(v.ota, Start, running, p));
    Chain(VALUES_BOOT, three, v, four, end, running);
    EndsJoin(three, four);
    steps := three + four;
    DeviceLeads(buffers, steps, end, running);
    UploadsCostBuffers(buffers, steps, running);
    var d := Final(DeviceBoot(buffers), steps, running);
    forall more | Run(d, more, running) ensures !Enabled(Final(d, more, running), Acquire) {
      NoBufferNoReturn(d, more, running);
    }
  }

  // ---------------------------------------------------------------- a slow worker

  const STARTED: Ticket<Bytes> := Ticket(1, Start)

  /** The first upload, its start message and some chunks still in the update queue. */
  function Backlog(queue: seq<Ticket<Bytes>>, pool: nat, lost: nat): Values {
    Values(pool, Waiting, [], queue, Ready, OTA_BOOT, 1, lost)
  }

  /** A chunk that arrives while the worker does nothing. */
  lemma ChunkMeetsBacklog(queue: seq<Ticket<Bytes>>, pool: nat, data: Bytes, running: Bytes)
      returns (after: Values)
    requires 0 < |data| <= CHUNK_SIZE && pool > 0
    ensures Leads(Backlog(queue, pool, 0), [Acquire, Receive(data), Post, Dispatch], after, running)
    ensures after == if |queue| < OTA_QUEUE then Backlog(queue + [Ticket(1, Packet(data))], pool - 1, 0)
                     else Backlog(queue, pool - 1, 1)
  {
    var v := Backlog(queue, pool, 0);
    var ready := v.(pool := pool - 1, http := Posting(data));
    var sent := v.(pool := pool - 1, events := [Transfer(Ticket(1, Packet(data)))]);
    TwoSteps(v, Acquire, Receive(data), running);
    TwoSteps(ready, Post, Dispatch, running);
    assert NextValue(ready, Post, running) == sent;
    after := DispatchedValue(sent);
    Chain(v, [Acquire, Receive(data)], ready, [Post, Dispatch], after, running);
    assert [Acquire, Receive(data)] + [Post, Dispatch] == [Acquire, Receive(data), Post, Dispatch];
  }

  /** Before the worker has dequeued the start message, chunks can be dropped: if it is slow to, the
      third chunk of an upload finds the queue full. */
  lemma SlowWorkerDropsChunk(buffers: seq<Bytes>, data: Bytes, running: Bytes) returns (steps: seq<Step>)
    requires BuffersOk(buffers) && 0 < |data| <= CHUNK_SIZE
    ensures Run(DeviceBoot(buffers), steps, running)
    ensures Arrivals(steps) == [Start, Packet(data), Packet(data), Packet(data)]
    ensures Final(DeviceBoot(buffers), steps, running).lost == 1
  {
    hide NextValue, Next;
    var end: Values;
    steps, end := BacklogOverflows(data, running);
    DeviceLeads(buffers, steps, end, running);
  }

  lemma UploadStarts(running: Bytes)
    ensures Leads(VALUES_BOOT, [Step.Begin, Dispatch], Backlog([STARTED], BUFFERS, 0), running)
  {
    TwoSteps(VALUES_BOOT, Step.Begin, Dispatch, running);
  }

  lemma BacklogOverflows(data: Bytes, running: Bytes) returns (steps: seq<Step>, end: Values)
    requires 0 < |data| <= CHUNK_SIZE
    ensures Leads(VALUES_BOOT, steps, end, running) && end.lost == 1
    ensures Arrivals(steps) == [Start, Packet(data), Packet(data), Packet(data)]
  {
    hide NextValue, Arrivals;
    var chunk := [Acquire, Receive(data), Post, Dispatch];
    steps := [Step.Begin, Dispatch];
    UploadStarts(running);
    var one := ChunkMeetsBacklog([STARTED], 3, data, running);
    Chain(VALUES_BOOT, steps, Backlog([STARTED], 3, 0), chunk, one, running);
    steps := steps + chunk;
    var two := ChunkMeetsBacklog(one.queue, 2, data, running);
    Chain(VALUES_BOOT, steps, one, chunk, two, running);
    steps := steps + chunk;
    end := ChunkMeetsBacklog(two.queue, 1, data, running);
    Chain(VALUES_BOOT, steps, two, chunk, end, running);
    steps := steps + chunk;
    BacklogArrivals(data);
  }

  lemma BacklogArrivals(data: Bytes)
    ensures Arrivals([Step.Begin, Dispatch]) == [Start]
    ensures Arrivals([Acquire, Receive(data), Post, Dispatch]) == [Packet(data)]
  {
    ReceiveArrives(data);
    ArrivalsCompose([Acquire, Receive(data), Post], [Dispatch]);
    assert [Acquire, Receive(data), Post] + [Dispatch] == [Acquire, Receive(data), Post, Dispatch];
    NoArrivals([Dispatch]);
    assert [Step.Begin, Dispatch][1..] == [Dispatch];
  }
}
