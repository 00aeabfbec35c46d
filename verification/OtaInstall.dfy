/** What one boot installs when nothing fails, and what becomes of an upload that breaks off. */
module OtaInstall {
  import opened Options
  import opened Versions
  import opened OtaModel
  import opened OtaSafety

  predicate AllOk(p: Platform) {
    p.partitionFound && p.beginOk && p.writeOk && p.endOk && p.bootOk
  }

  /** A packet that passes the header check. */
  predicate Acceptable(first: seq<byte>, running: seq<byte>, p: Platform) {
    && |first| > 288
    && Newer(VersionOf(first), Against(running, p))
    && p.lastInvalid != Some(VersionOf(first))
  }

  function Deliveries(messages: seq<Message<seq<byte>>>, p: Platform): seq<Delivery> {
    seq(|messages|, k requires 0 <= k < |messages| => Delivery(messages[k], p))
  }

  /** The packets among some messages, joined. */
  function Payload(messages: seq<Message<seq<byte>>>): seq<byte> {
    if messages == [] then []
    else (if messages[0].Packet? then messages[0].data else []) + Payload(messages[1..])
  }

  predicate WritingOn(s: Ota) {
    OtaInv(s) && s.state == Active && s.handle.Open? && !s.restarted
  }

  lemma PacketExtendsImage(s: Ota, m: Message<seq<byte>>, running: seq<byte>, p: Platform)
    requires AllOk(p) && WritingOn(s) && !m.Complete?
    ensures var t := Handled(s, m, running, p);
      WritingOn(t) && t.handle.written == s.handle.written + (if m.Packet? then m.data else [])
  {
    MessageKeepsInv(s, m, running, p);
    assert s.handle.written + [] == s.handle.written;
  }

  /** Once an image is being written, every packet extends it, whatever start messages come between. */
  lemma {:induction false} PacketsExtendImage(
      s: Ota, messages: seq<Message<seq<byte>>>, running: seq<byte>, p: Platform)
    requires AllOk(p) && WritingOn(s)
    requires forall k :: 0 <= k < |messages| ==> !messages[k].Complete?
    ensures var t := Served(s, Deliveries(messages, p), running);
      WritingOn(t) && t.handle.written == s.handle.written + Payload(messages)
    decreases messages
  {
    hide Handled, OtaInv;
    if messages == [] {
      assert s.handle.written + [] == s.handle.written;
    } else {
      var m := messages[0];
      var data := if m.Packet? then m.data else [];
      PacketExtendsImage(s, m, running, p);
      assert Deliveries(messages, p)[1..] == Deliveries(messages[1..], p);
      PacketsExtendImage(Handled(s, m, running, p), messages[1..], running, p);
      assert s.handle.written + data + Payload(messages[1..]) == s.handle.written + (data + Payload(messages[1..]));
    }
  }

  /** Without failures, an upload whose first packet passes the header check is installed byte for byte,
      together with the packets of any later upload that starts before it completes; whatever the
      service has been served before, as long as no header has passed the check in this boot. */
  lemma UploadIsInstalled(
      s: Ota, first: seq<byte>, rest: seq<Message<seq<byte>>>, running: seq<byte>, p: Platform)
    requires OtaInv(s) && !s.checked && !s.restarted
    requires AllOk(p) && Acceptable(first, running, p)
    requires forall k :: 0 <= k < |rest| ==> !rest[k].Complete?
    ensures var inbox := Deliveries([Start, Packet(first)] + rest + [Complete], p);
      var end := Served(s, inbox, running);
      && end.restarted
      && PhaseOf(end.calls) == Booted(first + Payload(rest))
  {
    hide Handled, WritingOn, OtaInv, AllOk, Acceptable, PhaseOf, Payload, Served, Deliveries;
    var opening := Deliveries([Start, Packet(first)], p);
    var middle := Deliveries(rest, p);
    var closing := Deliveries([Complete], p);
    DeliveriesJoin([Start, Packet(first)], rest, p);
    DeliveriesJoin([Start, Packet(first)] + rest, [Complete], p);
    ServedCompose(s, opening + middle, closing, running);
    ServedCompose(s, opening, middle, running);
    FirstPacketOpens(s, first, running, p);
    PacketsExtendImage(Served(s, opening, running), rest, running, p);
    CompletionBoots(Served(s, opening + middle, running), running, p);
  }

  lemma FirstPacketOpens(s: Ota, first: seq<byte>, running: seq<byte>, p: Platform)
    requires OtaInv(s) && !s.checked && !s.restarted
    requires AllOk(p) && Acceptable(first, running, p)
    ensures var t := Served(s, Deliveries([Start, Packet(first)], p), running);
      WritingOn(t) && t.handle == Open(first)
  {
    hide OtaInv;
    var inbox := Deliveries([Start, Packet(first)], p);
    BootKeepsInv(s, inbox, running);
    var started := Handled(s, Start, running, p);
    StartActivates(s, running, p);
    var open := Handled(started, Packet(first), running, p);
    PacketOpens(started, first, running, p);
    assert inbox[1..] == [Delivery(Packet(first), p)];
    assert Served(started, inbox[1..], running) == Served(open, [], running);
  }

  lemma StartActivates(s: Ota, running: seq<byte>, p: Platform)
    requires OtaInv(s) && !s.restarted && p.partitionFound
    ensures var t := Handled(s, Start, running, p);
      t.state == t.nextState == Active && t.checked == s.checked && !t.restarted
  {
  }

  lemma PacketOpens(s: Ota, first: seq<byte>, running: seq<byte>, p: Platform)
    requires s.state == Active && !s.checked && !s.restarted && s.nextState == Active
    requires AllOk(p) && Acceptable(first, running, p)
    ensures var t := Handled(s, Packet(first), running, p); t.state == Active && t.handle == Open(first) && !t.restarted
  {
    assert [] + first == first;
  }

  lemma CompletionBoots(s: Ota, running: seq<byte>, p: Platform)
    requires AllOk(p) && WritingOn(s)
    ensures var t := Served(s, Deliveries([Complete], p), running);
      t.restarted && PhaseOf(t.calls) == Booted(s.handle.written)
  {
    hide AllOk;
    CompletedLog(s.calls);
    CompletionRestarts(s, running, p);
    assert Deliveries([Complete], p)[1..] == [];
    assert Served(Handled(s, Complete, running, p), [], running) == Handled(s, Complete, running, p);
  }

  lemma CompletionRestarts(s: Ota, running: seq<byte>, p: Platform)
    requires AllOk(p) && s.state == Active && s.handle.Open?
    ensures var t := Handled(s, Complete, running, p);
      t.restarted && t.calls == s.calls + [End(true), SetBoot(true), Restart]
  {
  }

  lemma DeliveriesJoin(front: seq<Message<seq<byte>>>, back: seq<Message<seq<byte>>>, p: Platform)
    ensures Deliveries(front + back, p) == Deliveries(front, p) + Deliveries(back, p)
  {
  }

  /** An upload that breaks off is not dropped: the next one is appended to it, and the image
      installed is neither of the two. */
  lemma BrokenUploadIsContinued(broken: seq<byte>, second: seq<byte>, running: seq<byte>, p: Platform)
    requires AllOk(p) && Acceptable(broken, running, p) && second != []
    ensures var inbox := Deliveries([Start, Packet(broken), Start, Packet(second), Complete], p);
      var end := Served(OTA_BOOT, inbox, running);
      && PhaseOf(end.calls) == Booted(broken + second)
      && broken + second != broken && broken + second != second
  {
    var rest: seq<Message<seq<byte>>> := [Start, Packet(second)];
    BootIsSafe();
    UploadIsInstalled(OTA_BOOT, broken, rest, running, p);
    assert [Start, Packet(broken)] + rest + [Complete] == [Start, Packet(broken), Start, Packet(second), Complete];
    assert rest[1..] == [Packet(second)];
    assert Payload(rest[1..]) == second + Payload(rest[1..][1..]);
    assert Payload(rest) == second;
    assert |broken + second| > |broken| && |broken + second| > |second|;
  }
}
