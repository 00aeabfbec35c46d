/** Which of the packets served during a boot make up the image. */
module OtaImage {
  import opened Versions
  import opened OtaModel
  import opened OtaSafety
  import opened OtaInstall

  function Messages(inbox: seq<Delivery>): seq<Message<seq<byte>>> {
    if inbox == [] then [] else Messages(inbox[..|inbox| - 1]) + [inbox[|inbox| - 1].message]
  }

  lemma {:induction false} MessagesAt(inbox: seq<Delivery>)
    ensures |Messages(inbox)| == |inbox|
    ensures forall i :: 0 <= i < |inbox| ==> Messages(inbox)[i] == inbox[i].message
  {
    if inbox == [] {
    } else {
      MessagesAt(inbox[..|inbox| - 1]);
    }
  }

  lemma MessagesAppend(inbox: seq<Delivery>, d: Delivery)
    ensures Messages(inbox + [d]) == Messages(inbox) + [d.message]
  {
    assert (inbox + [d])[..|inbox|] == inbox;
  }

  lemma {:induction false} PayloadAppend(messages: seq<Message<seq<byte>>>, m: Message<seq<byte>>)
    ensures Payload(messages + [m]) == Payload(messages) + (if m.Packet? then m.data else [])
  {
    if messages == [] {
      assert [m][1..] == [];
      assert [] + [m] == [m];
    } else {
      assert (messages + [m])[1..] == messages[1..] + [m];
      PayloadAppend(messages[1..], m);
    }
  }

  lemma ServedAppend(inbox: seq<Delivery>, d: Delivery, running: seq<byte>)
    ensures var s := Served(OTA_BOOT, inbox, running);
      Served(OTA_BOOT, inbox + [d], running) ==
        if s.restarted then s else Handled(s, d.message, running, d.platform)
  {
    ServedCompose(OTA_BOOT, inbox, [d], running);
    var s := Served(OTA_BOOT, inbox, running);
    if !s.restarted {
      assert Served(s, [d], running) == Served(Handled(s, d.message, running, d.platform), [], running);
    }
  }

  /** The bytes of the image while it is being written and once it has been switched to. */
  predicate HasImage(s: Ota, image: seq<byte>) {
    PhaseOf(s.calls) == Writing(image) || PhaseOf(s.calls) == Booted(image)
  }

  /** From packet k on, directly after a start message, the packets joined are the image; only the
      last message may be a complete message. */
  predicate ImageFrom(inbox: seq<Delivery>, k: nat, image: seq<byte>) {
    && 1 <= k < |inbox| && inbox[k].message.Packet? && inbox[k - 1].message == Start
    && image == Payload(Messages(inbox[k..]))
    && forall i :: k <= i < |inbox| - 1 ==> inbox[i].message != Complete
  }

  /** The image is exactly the packets served from the accepted header packet on, joined in order.
      That packet directly follows a start message, and no complete message comes before the one
      that ends it. */
  lemma {:induction false} ImageIsServedSuffix(inbox: seq<Delivery>, running: seq<byte>, image: seq<byte>)
      returns (k: nat)
    requires HasImage(Served(OTA_BOOT, inbox, running), image)
    requires inbox != [] ==> !Served(OTA_BOOT, inbox[..|inbox| - 1], running).restarted
    ensures ImageFrom(inbox, k, image)
    ensures Served(OTA_BOOT, inbox, running).restarted <==> inbox[|inbox| - 1].message == Complete
    ensures !Served(OTA_BOOT, inbox[..k], running).checked
    decreases |inbox|
  {
    hide Handled, ImageFrom;
    var front, d := inbox[..|inbox| - 1], inbox[|inbox| - 1];
    assert inbox == front + [d];
    ServedAppend(front, d, running);
    BootKeepsInv(OTA_BOOT, front, running);
    var before := Served(OTA_BOOT, front, running);
    MessageGrowsImage(before, d, running, image);
    if !before.checked {
      k := |front|;
      ActiveFollowsStart(front, running);
      HeaderPacketIsImage(front, d);
    } else {
      var written := before.handle.written;
      NotRestartedBefore(front, running);
      k := ImageIsServedSuffix(front, running, written);
      MessageExtendsImage(front, d, k, written);
      assert inbox[..k] == front[..k];
    }
  }

  lemma HeaderPacketIsImage(front: seq<Delivery>, d: Delivery)
    requires front != [] && front[|front| - 1].message == Start && d.message.Packet?
    ensures ImageFrom(front + [d], |front|, d.message.data)
  {
    assert (front + [d])[|front|..] == [d];
    PayloadOfOne(d);
  }

  lemma MessageExtendsImage(front: seq<Delivery>, d: Delivery, k: nat, image: seq<byte>)
    requires ImageFrom(front, k, image) && front[|front| - 1].message != Complete
    ensures k < |front|
    ensures ImageFrom(front + [d], k, image + (if d.message.Packet? then d.message.data else []))
  {
    assert (front + [d])[k..] == front[k..] + [d];
    MessagesAppend(front[k..], d);
    PayloadAppend(Messages(front[k..]), d.message);
  }

  lemma PayloadOfOne(d: Delivery)
    requires d.message.Packet?
    ensures Payload(Messages([d])) == d.message.data
  {
    assert Messages([d]) == [d.message];
    PayloadAppend([], d.message);
    assert [] + [d.message] == [d.message] && [] + d.message.data == d.message.data;
  }

  /** Waiting for a header packet, the service has just been served a start message. */
  lemma ActiveFollowsStart(inbox: seq<Delivery>, running: seq<byte>)
    requires var s := Served(OTA_BOOT, inbox, running); s.state == Active && !s.checked && !s.restarted
    ensures inbox != [] && inbox[|inbox| - 1].message == Start
  {
    if inbox != [] {
      var front, d := inbox[..|inbox| - 1], inbox[|inbox| - 1];
      assert inbox == front + [d];
      ServedAppend(front, d, running);
      BootKeepsInv(OTA_BOOT, front, running);
    }
  }

  lemma NotRestartedBefore(inbox: seq<Delivery>, running: seq<byte>)
    requires !Served(OTA_BOOT, inbox, running).restarted && inbox != []
    ensures !Served(OTA_BOOT, inbox[..|inbox| - 1], running).restarted
  {
    assert inbox == inbox[..|inbox| - 1] + [inbox[|inbox| - 1]];
    ServedAppend(inbox[..|inbox| - 1], inbox[|inbox| - 1], running);
  }

  lemma UncheckedMessage(s: Ota, d: Delivery, running: seq<byte>)
    requires OtaInv(s) && !s.restarted && !s.checked
    ensures var next := Handled(s, d.message, running, d.platform);
      && !next.restarted
      && (next.handle.Open? ==> d.message.Packet? && s.state == Active && next.handle == Open(d.message.data))
  {
    if d.message.Packet? {
      assert [] + d.message.data == d.message.data;
    }
  }

  lemma WritingMessage(s: Ota, d: Delivery, running: seq<byte>)
    requires OtaInv(s) && !s.restarted && s.handle.Open?
    ensures var next := Handled(s, d.message, running, d.platform);
      && (next.restarted ==> d.message == Complete && PhaseOf(next.calls) == Booted(s.handle.written))
      && (next.handle.Open? ==> d.message != Complete)
      && (next.handle.Open? ==>
            next.handle.written == s.handle.written + (if d.message.Packet? then d.message.data else []))
  {
    assert s.handle.written + [] == s.handle.written;
    CompletedLog(s.calls);
  }

  /** One message makes the header packet the image, adds a packet to it, or leaves it alone. */
  lemma MessageGrowsImage(s: Ota, d: Delivery, running: seq<byte>, image: seq<byte>)
    requires OtaInv(s) && !s.restarted
    requires HasImage(Handled(s, d.message, running, d.platform), image)
    ensures !s.checked ==> d.message.Packet? && image == d.message.data && s.state == Active
    ensures Handled(s, d.message, running, d.platform).restarted <==> d.message == Complete
    ensures s.checked ==> s.handle.Open? && PhaseOf(s.calls) == Writing(s.handle.written)
    ensures s.checked ==> image == s.handle.written + (if d.message.Packet? then d.message.data else [])
  {
    var next := Handled(s, d.message, running, d.platform);
    MessageKeepsInv(s, d.message, running, d.platform);
    if !s.checked {
      UncheckedMessage(s, d, running);
    } else if s.handle.Open? {
      assert s.handle.written + [] == s.handle.written;
      WritingMessage(s, d, running);
    } else {
      FailedAttemptIsFinal(s, [d], running);
      ServedOne(s, d, running);
    }
  }

  lemma ServedOne(s: Ota, d: Delivery, running: seq<byte>)
    requires !s.restarted
    ensures Served(s, [d], running) == Handled(s, d.message, running, d.platform)
  {
    var next := Handled(s, d.message, running, d.platform);
    assert [d][1..] == [];
    assert Served(s, [d], running) == Served(next, [], running);
  }

  // ---------------------------------------------------------------- what a restarting upload installs

  /** Packets, and a complete message at the end. */
  predicate PacketsToEnd(inbox: seq<Delivery>) {
    && inbox != [] && inbox[|inbox| - 1].message == Complete
    && forall i :: 0 <= i < |inbox| - 1 ==> inbox[i].message.Packet?
  }

  /** An idle service ignores everything but a start message. */
  lemma {:induction false} IdleWaits(s: Ota, inbox: seq<Delivery>, running: seq<byte>)
    requires s.state == s.nextState == Idle && !s.restarted
    requires forall i :: 0 <= i < |inbox| ==> inbox[i].message != Start
    ensures Served(s, inbox, running) == s
    decreases inbox
  {
    if inbox == [] {
    } else {
      assert inbox[0].message != Start;
      assert Handled(s, inbox[0].message, running, inbox[0].platform) == s;
      IdleWaits(s, inbox[1..], running);
    }
  }

  lemma FailedIsDead(s: Ota)
    requires OtaInv(s) && s.checked && !s.handle.Open? && !s.restarted
    ensures PhaseOf(s.calls) == Dead
  {
  }

  lemma {:induction false} WritingEnds(s: Ota, inbox: seq<Delivery>, running: seq<byte>)
    requires OtaInv(s) && s.handle.Open? && PacketsToEnd(inbox) && Served(s, inbox, running).restarted
    ensures PhaseOf(Served(s, inbox, running).calls) == Booted(s.handle.written + Payload(Messages(inbox)))
    decreases inbox
  {
    hide Handled, OtaInv, PhaseOf, Payload, Messages;
    OpenIsNotRestarted(s);
    var d, rest := inbox[0], inbox[1..];
    var next := Handled(s, d.message, running, d.platform);
    MessageKeepsInv(s, d.message, running, d.platform);
    WritingMessage(s, d, running);
    PayloadOfTail(inbox);
    if next.restarted {
      assert rest == [] && [] + Payload(Messages(rest)) == [];
      assert s.handle.written + [] == s.handle.written;
    } else if next.handle.Open? {
      assert rest[|rest| - 1] == inbox[|inbox| - 1];
      assert forall i :: 0 <= i < |rest| ==> rest[i] == inbox[i + 1];
      WritingEnds(next, rest, running);
      assert s.handle.written + d.message.data + Payload(Messages(rest)) ==
             s.handle.written + (d.message.data + Payload(Messages(rest)));
    } else {
      CheckedStays(s, d, running);
      FailedIsDead(next);
      FailedAttemptIsFinal(next, rest, running);
    }
  }

  lemma OpenIsNotRestarted(s: Ota)
    requires OtaInv(s) && s.handle.Open?
    ensures !s.restarted && s.checked
  {
  }

  lemma CheckedStays(s: Ota, d: Delivery, running: seq<byte>)
    requires s.checked
    ensures Handled(s, d.message, running, d.platform).checked
  {
  }

  lemma PayloadOfTail(inbox: seq<Delivery>)
    requires inbox != []
    ensures var m := inbox[0].message;
      Payload(Messages(inbox)) == (if m.Packet? then m.data else []) + Payload(Messages(inbox[1..]))
    ensures Payload(Messages([])) == []
  {
    hide Messages;
    MessagesAt(inbox);
    MessagesAt(inbox[1..]);
    MessagesAt([]);
    assert Messages(inbox)[1..] == Messages(inbox[1..]);
  }

  /** An unchecked service that is given a packet opens with it, or fails, or goes idle. */
  lemma FirstPacket(s: Ota, d: Delivery, running: seq<byte>)
    requires OtaInv(s) && !s.restarted && !s.checked && s.state == Active && d.message.Packet?
    ensures var next := Handled(s, d.message, running, d.platform);
      && OtaInv(next) && !next.restarted
      && (next.handle.Open? ==> next.handle.written == d.message.data)
      && (!next.handle.Open? && !next.checked ==> next.state == next.nextState == Idle)
  {
    hide VersionOf, Newer;
    MessageKeepsInv(s, d.message, running, d.platform);
    UncheckedMessage(s, d, running);
  }

  lemma {:induction false} ActiveInstalls(s: Ota, inbox: seq<Delivery>, running: seq<byte>)
    requires OtaInv(s) && !s.restarted && !s.checked && s.state == Active
    requires PacketsToEnd(inbox) && Served(s, inbox, running).restarted
    ensures PhaseOf(Served(s, inbox, running).calls) == Booted(Payload(Messages(inbox)))
  {
    hide Handled, OtaInv, PhaseOf, Payload, Messages;
    var d, rest := inbox[0], inbox[1..];
    var next := Handled(s, d.message, running, d.platform);
    PayloadOfTail(inbox);
    if d.message.Packet? {
      FirstPacket(s, d, running);
      assert rest[|rest| - 1] == inbox[|inbox| - 1];
      assert forall i :: 0 <= i < |rest| ==> rest[i] == inbox[i + 1];
      if next.handle.Open? {
        WritingEnds(next, rest, running);
      } else if next.checked {
        FailedIsDead(next);
        FailedAttemptIsFinal(next, rest, running);
      } else {
        IdleWaits(next, rest, running);
      }
    } else {
      UncheckedMessage(s, d, running);
    }
  }

  lemma StartKeepsImage(s: Ota, p: Platform, running: seq<byte>)
    requires OtaInv(s) && !s.restarted
    ensures var t := Handled(s, Start, running, p);
      && OtaInv(t) && !t.restarted && t.checked == s.checked && t.handle == s.handle
      && (t.state == Idle ==> t.nextState == Idle)
  {
    MessageKeepsInv(s, Start, running, p);
  }

  /** The bytes of an image that is still being written. */
  function Unfinished(s: Ota): seq<byte> {
    if s.handle.Open? then s.handle.written else []
  }

  lemma OpenImageHasBytes(s: Ota)
    requires OtaInv(s)
    ensures Unfinished(s) != [] <==> s.handle.Open?
  {
  }

  /** Whatever state an upload finds the service in, and whatever the platform answers: if its
      completion restarts the device, then the device has switched to the image that was being written
      when it started, followed by its own packets. */
  lemma AttemptInstallsUpload(s: Ota, inbox: seq<Delivery>, running: seq<byte>)
    requires OtaInv(s) && !s.restarted
    requires inbox != [] && inbox[0].message == Start && PacketsToEnd(inbox[1..])
    requires Served(s, inbox, running).restarted
    ensures PhaseOf(Served(s, inbox, running).calls) == Booted(Unfinished(s) + Payload(Messages(inbox)))
  {
    hide Handled, OtaInv, PhaseOf, Payload, Messages;
    var next := Handled(s, Start, running, inbox[0].platform);
    var rest := inbox[1..];
    StartKeepsImage(s, inbox[0].platform, running);
    PayloadOfTail(inbox);
    assert [] + Payload(Messages(rest)) == Payload(Messages(rest));
    if next.handle.Open? {
      WritingEnds(next, rest, running);
    } else if next.state == Idle {
      IdleWaits(next, rest, running);
    } else if next.checked {
      FailedIsDead(next);
      FailedAttemptIsFinal(next, rest, running);
    } else {
      ActiveInstalls(next, rest, running);
    }
  }
}
