/** Exactly when an upload restarts the device, and what the service does after everything else. */
module OtaOutcome {
  import opened Versions
  import opened OtaModel
  import opened OtaSafety
  import opened OtaInstall
  import opened OtaImage

  // ---------------------------------------------------------------- one message

  /** A start message makes the service active if there is a partition, and leaves an active one alone;
      a packet keeps it active exactly if an image is open afterwards; a completion that does not
      restart the device makes it idle. */
  lemma ActiveExactly(s: Ota, m: Message<seq<byte>>, running: seq<byte>, p: Platform)
    requires OtaInv(s) && !s.restarted
    ensures var t := Handled(s, m, running, p);
      && OtaInv(t)
      && (m.Start? ==> (t.state == Active <==> s.state == Active || p.partitionFound))
      && (m.Start? ==> t == s.(state := t.state, nextState := t.nextState,
                               partition := if s.state == Idle then p.partitionFound else s.partition))
      && (m.Packet? ==> (t.state == Active <==> s.state == Active && t.handle.Open?))
      && (!m.Complete? ==> !t.restarted)
      && (m.Complete? && !t.restarted ==> t.state == Idle)
      && (!t.restarted ==> t.nextState == t.state)
  {
    MessageKeepsInv(s, m, running, p);
    if m.Packet? {
      PacketDecides(s, m.data, running, p);
    }
  }

  /** The first packet opens an image exactly if its header is accepted, an update can be begun and
      the packet be written; every later one keeps it open exactly if it can be written. An accepted
      header is the boot's one attempt, even if no update can be begun; a refused one is none. */
  lemma PacketDecides(s: Ota, data: seq<byte>, running: seq<byte>, p: Platform)
    requires OtaInv(s) && !s.restarted
    ensures var t := Handled(s, Packet(data), running, p);
      && !t.restarted
      && (t.handle.Open? <==>
            && s.state == Active && p.writeOk
            && (if s.checked then s.handle.Open? else Acceptable(data, running, p) && p.beginOk))
      && (t.state == Active <==> t.handle.Open?)
      && (t.handle.Open? ==> t.handle.written == (if s.checked then s.handle.written + data else data))
      && (s.state == Active && !s.checked ==> (t.checked <==> Acceptable(data, running, p)))
      && (s.state == Active && !s.checked ==>
            if Acceptable(data, running, p)
            then s.calls + [Begin(VersionOf(data), Against(running, p), p.lastInvalid, p.beginOk)] <= t.calls
            else t.calls == s.calls)
      && (s.checked ==> t.checked)
  {
    hide Newer, VersionOf;
    assert [] + data == data;
  }

  /** A completion restarts the device exactly if an image is open, and can be ended and switched to. */
  lemma CompletionDecides(s: Ota, running: seq<byte>, p: Platform)
    requires OtaInv(s) && !s.restarted
    ensures var t := Handled(s, Complete, running, p);
      && (t.restarted <==> s.handle.Open? && p.endOk && p.bootOk)
      && (!t.restarted ==> t.state == Idle && !t.handle.Open?)
  {
  }

  /** After a packet or a completion that neither leaves an image open nor restarts the device, the
      service is idle, and does nothing at all until the next start message. */
  lemma FailureIsSilent(s: Ota, d: Delivery, inbox: seq<Delivery>, running: seq<byte>)
    requires OtaInv(s) && !s.restarted && d.message != Start
    requires forall i :: 0 <= i < |inbox| ==> inbox[i].message != Start
    ensures var t := Handled(s, d.message, running, d.platform);
      !t.restarted && !t.handle.Open? ==> t.state == Idle && Served(t, inbox, running) == t
  {
    hide Handled, OtaInv;
    ActiveExactly(s, d.message, running, d.platform);
    var t := Handled(s, d.message, running, d.platform);
    if !t.restarted && !t.handle.Open? {
      IdleWaits(t, inbox, running);
    }
  }

  // ---------------------------------------------------------------- a whole upload

  /** Every packet can be written, and the image ended and switched to. */
  predicate AllCallsSucceed(inbox: seq<Delivery>)
    requires PacketsToEnd(inbox)
  {
    && (forall i :: 0 <= i < |inbox| - 1 ==> inbox[i].platform.writeOk)
    && inbox[|inbox| - 1].platform.endOk && inbox[|inbox| - 1].platform.bootOk
  }

  /** The first packet passes the header check, and an update can be begun. */
  predicate Opens(inbox: seq<Delivery>, running: seq<byte>)
    requires PacketsToEnd(inbox)
  {
    |inbox| > 1 && Acceptable(inbox[0].message.data, running, inbox[0].platform) && inbox[0].platform.beginOk
  }

  predicate Outcome(t: Ota, restarts: bool) {
    t.restarted == restarts && (!restarts ==> t.state == Idle)
  }

  lemma TailOfUpload(inbox: seq<Delivery>)
    requires PacketsToEnd(inbox) && inbox[0].message.Packet?
    ensures var rest := inbox[1..];
      && PacketsToEnd(rest) && |inbox| > 1
      && (AllCallsSucceed(inbox) <==> inbox[0].platform.writeOk && AllCallsSucceed(rest))
      && forall i :: 0 <= i < |rest| ==> rest[i].message != Start
  {
    var rest := inbox[1..];
    assert rest[|rest| - 1] == inbox[|inbox| - 1];
    assert forall i :: 0 <= i < |rest| ==> rest[i] == inbox[i + 1];
    assert AllCallsSucceed(rest) && inbox[0].platform.writeOk ==>
      forall i :: 0 < i < |inbox| - 1 ==> inbox[i].platform == rest[i - 1].platform;
  }

  lemma CompletionOutcome(s: Ota, inbox: seq<Delivery>, running: seq<byte>)
    requires OtaInv(s) && !s.restarted && PacketsToEnd(inbox) && !inbox[0].message.Packet?
    ensures inbox == [inbox[0]]
    ensures Outcome(Served(s, inbox, running), s.handle.Open? && AllCallsSucceed(inbox))
  {
    hide Handled;
    assert |inbox| == 1;
    CompletionDecides(s, running, inbox[0].platform);
    ServedOne(s, inbox[0], running);
  }

  lemma {:induction false} WritingOutcome(s: Ota, inbox: seq<Delivery>, running: seq<byte>)
    requires OtaInv(s) && s.handle.Open? && PacketsToEnd(inbox)
    ensures Outcome(Served(s, inbox, running), AllCallsSucceed(inbox))
    decreases inbox
  {
    hide Handled, OtaInv, AllCallsSucceed;
    OpenIsNotRestarted(s);
    if !inbox[0].message.Packet? {
      CompletionOutcome(s, inbox, running);
    } else {
      var d, rest := inbox[0], inbox[1..];
      var next := Handled(s, d.message, running, d.platform);
      TailOfUpload(inbox);
      OpenIsActive(s);
      ActiveExactly(s, d.message, running, d.platform);
      PacketDecides(s, d.message.data, running, d.platform);
      if next.handle.Open? {
        WritingOutcome(next, rest, running);
      } else {
        FailureIsSilent(s, d, rest, running);
      }
    }
  }

  lemma OpenIsActive(s: Ota)
    requires OtaInv(s) && s.handle.Open?
    ensures s.state == Active
  {
  }

  /** A service that is active with no header accepted yet. */
  lemma WaitingOutcome(s: Ota, inbox: seq<Delivery>, running: seq<byte>)
    requires OtaInv(s) && !s.restarted && !s.checked && s.state == Active && PacketsToEnd(inbox)
    ensures Outcome(Served(s, inbox, running), Opens(inbox, running) && AllCallsSucceed(inbox))
  {
    hide Handled, OtaInv, AllCallsSucceed, Acceptable;
    UncheckedIsClosed(s);
    if !inbox[0].message.Packet? {
      CompletionOutcome(s, inbox, running);
    } else {
      var d, rest := inbox[0], inbox[1..];
      var next := Handled(s, d.message, running, d.platform);
      TailOfUpload(inbox);
      ActiveExactly(s, d.message, running, d.platform);
      PacketDecides(s, d.message.data, running, d.platform);
      if next.handle.Open? {
        WritingOutcome(next, rest, running);
      } else {
        FailureIsSilent(s, d, rest, running);
      }
    }
  }

  lemma UncheckedIsClosed(s: Ota)
    requires OtaInv(s) && !s.checked
    ensures !s.handle.Open?
  {
  }

  lemma DeadOutcome(s: Ota, inbox: seq<Delivery>, running: seq<byte>)
    requires OtaInv(s) && !s.restarted && s.checked && !s.handle.Open? && s.state == Active && PacketsToEnd(inbox)
    ensures Outcome(Served(s, inbox, running), false)
  {
    hide Handled, OtaInv, AllCallsSucceed, Acceptable;
    if !inbox[0].message.Packet? {
      CompletionOutcome(s, inbox, running);
    } else {
      var d, rest := inbox[0], inbox[1..];
      TailOfUpload(inbox);
      PacketDecides(s, d.message.data, running, d.platform);
      FailureIsSilent(s, d, rest, running);
    }
  }

  /** What it takes for an upload to restart the device, in the state its start message finds. */
  predicate Succeeds(s: Ota, inbox: seq<Delivery>, running: seq<byte>)
    requires inbox != [] && PacketsToEnd(inbox[1..])
  {
    var rest := inbox[1..];
    && AllCallsSucceed(rest)
    && (s.handle.Open? ||
        (!s.checked && (s.state == Active || inbox[0].platform.partitionFound) && Opens(rest, running)))
  }

  /** In every state of the service, and whatever the platform answers: an upload restarts the device if
      and only if every flash call it needs succeeds and either an image was being written already, or
      no header had been accepted in this boot, there is a partition, and its first packet passes the
      header check. Otherwise the service is idle afterwards. */
  lemma UploadRestartsIff(s: Ota, inbox: seq<Delivery>, running: seq<byte>)
    requires OtaInv(s) && !s.restarted
    requires inbox != [] && inbox[0].message == Start && PacketsToEnd(inbox[1..])
    ensures var t := Served(s, inbox, running);
      (t.restarted <==> Succeeds(s, inbox, running)) && (!t.restarted ==> t.state == Idle)
  {
    hide Handled, OtaInv, AllCallsSucceed, Opens;
    var next := Handled(s, Start, running, inbox[0].platform);
    var rest := inbox[1..];
    ActiveExactly(s, Start, running, inbox[0].platform);
    if next.state == Idle {
      IdleIsClosed(next);
      IdleWaits(next, rest, running);
    } else if next.handle.Open? {
      WritingOutcome(next, rest, running);
    } else if next.checked {
      DeadOutcome(next, rest, running);
    } else {
      WaitingOutcome(next, rest, running);
    }
  }

  /** Two uploads with accepted headers cannot both be tried in one boot: once a header was accepted and
      no image is open any more, no upload whatsoever restarts the device. */
  lemma OneChancePerBoot(s: Ota, inbox: seq<Delivery>, running: seq<byte>)
    requires OtaInv(s) && !s.restarted && s.checked && !s.handle.Open?
    requires inbox != [] && inbox[0].message == Start && PacketsToEnd(inbox[1..])
    ensures !Served(s, inbox, running).restarted && Served(s, inbox, running).state == Idle
  {
    hide Handled, OtaInv;
    UploadRestartsIff(s, inbox, running);
  }

  lemma IdleIsClosed(s: Ota)
    requires OtaInv(s) && s.state == Idle
    ensures !s.handle.Open?
  {
  }
}
