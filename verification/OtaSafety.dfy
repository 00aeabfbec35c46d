/** Boot switch safety: the flash calls of one boot, over every sequence of messages and answers. */
module OtaSafety {
  import opened Options
  import opened Versions
  import opened OtaModel

  // ---------------------------------------------------------------- the order of flash calls

  /** Where a log of flash calls stands. `Broken` is a log that no boot may produce. */
  datatype Phase =
    | Fresh
    | Writing(image: seq<byte>)
    | Failing
    | Sealed(image: seq<byte>)
    | Booted(image: seq<byte>)
    | Dead
    | Broken

  predicate Refused(c: Call) {
    c.Abort? || ((c.Write? || c.End?) && !c.ok)
  }

  function After(phase: Phase, c: Call): Phase {
    match phase
    case Fresh => if Refused(c) then Fresh else if !c.Begin? then Broken else if c.ok then Writing([]) else Dead
    case Writing(image) =>
      if c.Write? then (if c.ok then Writing(image + c.data) else Failing)
      else if c.End? then (if c.ok then Sealed(image) else Dead)
      else Broken
    case Failing => if c.Abort? then Dead else Broken
    case Sealed(image) => if !c.SetBoot? then Broken else if c.ok then Booted(image) else Dead
    case Booted(_) => if c.Restart? then phase else Broken
    case Dead => if Refused(c) then Dead else Broken
    case Broken => Broken
  }

  function PhaseOf(log: seq<Call>): Phase {
    if log == [] then Fresh else After(PhaseOf(log[..|log| - 1]), log[|log| - 1])
  }

  lemma PhaseAppend(log: seq<Call>, c: Call)
    ensures PhaseOf(log + [c]) == After(PhaseOf(log), c)
  {
    assert (log + [c])[..|log|] == log;
  }

  lemma PhaseAppend2(log: seq<Call>, c: Call, d: Call)
    ensures PhaseOf(log + [c, d]) == After(After(PhaseOf(log), c), d)
  {
    hide PhaseOf, After;
    PhaseAppend(log, c);
    PhaseAppend(log + [c], d);
    assert log + [c, d] == log + [c] + [d];
  }

  /** The datas of some writes, joined. */
  function Joined(writes: seq<Call>): seq<byte>
    requires forall k :: 0 <= k < |writes| ==> writes[k].Write?
  {
    if writes == [] then [] else Joined(writes[..|writes| - 1]) + writes[|writes| - 1].data
  }

  /** `log[from..to]` consists of successful writes, and `log[from - 1]` is a successful begin. */
  predicate WritesSince(log: seq<Call>, from: nat, to: nat) {
    && 1 <= from <= to <= |log|
    && log[from - 1].Begin? && log[from - 1].ok
    && forall k :: from <= k < to ==> log[k].Write? && log[k].ok
  }

  lemma JoinedAppend(writes: seq<Call>, w: Call)
    requires w.Write? && forall k :: 0 <= k < |writes| ==> writes[k].Write?
    ensures Joined(writes + [w]) == Joined(writes) + w.data
  {
    assert (writes + [w])[..|writes|] == writes;
  }

  lemma WritesGrow(log: seq<Call>, from: nat, w: Call)
    requires WritesSince(log, from, |log|) && w.Write? && w.ok
    ensures WritesSince(log + [w], from, |log| + 1)
    ensures Joined((log + [w])[from..]) == Joined(log[from..]) + w.data
    ensures (log + [w])[..from - 1] == log[..from - 1]
  {
    assert (log + [w])[from..] == log[from..] + [w];
    JoinedAppend(log[from..], w);
  }

  /** A log in `Writing` ends with one successful begin and successful writes, nothing else. */
  lemma {:induction false} WritingLog(log: seq<Call>) returns (from: nat)
    requires PhaseOf(log).Writing?
    ensures WritesSince(log, from, |log|)
    ensures PhaseOf(log).image == Joined(log[from..])
    ensures PhaseOf(log[..from - 1]) == Fresh
  {
    var front, last := log[..|log| - 1], log[|log| - 1];
    assert log == front + [last];
    if last.Begin? {
      from := |log|;
    } else {
      from := WritingLog(front);
      WritesGrow(front, from, last);
    }
  }

  predicate Intact(log: seq<Call>) {
    PhaseOf(log) != Broken
  }

  lemma {:induction false} PrefixIntact(log: seq<Call>, n: nat)
    requires Intact(log) && n <= |log|
    ensures Intact(log[..n])
    decreases |log|
  {
    if n < |log| {
      assert log[..n] == log[..|log| - 1][..n];
      PrefixIntact(log[..|log| - 1], n);
    } else {
      assert log[..n] == log;
    }
  }

  function Begins(log: seq<Call>): nat {
    if log == [] then 0 else Begins(log[..|log| - 1]) + (if log[|log| - 1].Begin? then 1 else 0)
  }

  function Switches(log: seq<Call>): nat {
    if log == [] then 0 else Switches(log[..|log| - 1]) + (if log[|log| - 1].SetBoot? then 1 else 0)
  }

  /** In an intact log, begin and set-boot are each called at most once. */
  lemma {:induction false} AtMostOneAttempt(log: seq<Call>)
    requires Intact(log)
    ensures Begins(log) == (if PhaseOf(log) == Fresh then 0 else 1)
    ensures Switches(log) <= Begins(log)
    ensures PhaseOf(log).Writing? || PhaseOf(log).Sealed? ==> Switches(log) == 0
  {
    if log == [] {
    } else {
      AtMostOneAttempt(log[..|log| - 1]);
    }
  }

  /** A set-boot call directly follows a successful end, and that a stretch of successful writes
      begun by a successful begin. */
  lemma SwitchIsEarned(log: seq<Call>, at: nat) returns (from: nat)
    requires Intact(log) && at < |log| && log[at].SetBoot?
    ensures at >= 1 && log[at - 1] == End(true) && WritesSince(log, from, at - 1)
    ensures PhaseOf(log[..at]) == Sealed(Joined(log[from..at - 1]))
    ensures Begins(log) == 1 && Switches(log) == 1
  {
    PrefixIntact(log, at + 1);
    assert log[..at + 1][..at] == log[..at];
    assert PhaseOf(log[..at]).Sealed?;
    assert log[..at][..at - 1] == log[..at - 1];
    assert log[at - 1] == End(true);
    from := WritingLog(log[..at - 1]);
    assert log[..at - 1][from..] == log[from..at - 1];
    forall k | from <= k < at - 1 ensures log[k].Write? && log[k].ok {
      assert log[k] == log[..at - 1][k];
    }
    AtMostOneAttempt(log);
    SwitchCounted(log, at);
  }

  lemma {:induction false} SwitchCounted(log: seq<Call>, at: nat)
    requires at < |log| && log[at].SetBoot?
    ensures Switches(log) >= 1
    decreases |log|
  {
    if at == |log| - 1 {
    } else {
      SwitchCounted(log[..|log| - 1], at);
    }
  }

  // ---------------------------------------------------------------- what every message keeps

  predicate HeaderAccepted(c: Call) {
    c.Begin? ==> Newer(c.version, c.against) && c.invalid != Some(c.version)
  }

  /** Every begin in the log was for an acceptable header. */
  predicate HeadersAccepted(log: seq<Call>) {
    forall k :: 0 <= k < |log| ==> HeaderAccepted(log[k])
  }

  /** The one begin in the log was for the version that the written image carries. */
  predicate VersionRecorded(log: seq<Call>, image: seq<byte>) {
    && |image| > HEADERS + APP_DESC
    && forall k :: 0 <= k < |log| && log[k].Begin? ==> log[k].version == VersionOf(image)
  }

  predicate OtaInv(s: Ota) {
    && Intact(s.calls) && HeadersAccepted(s.calls)
    && (s.state == s.nextState || s.restarted)
    && (s.state == Active ==> s.partition)
    && match PhaseOf(s.calls)
       case Fresh => !s.checked && s.handle == NeverOpened && !s.restarted && s.length == 0
       case Writing(image) =>
         s.checked && s.state == Active && s.handle == Open(image) && !s.restarted && s.length == |image| &&
         VersionRecorded(s.calls, image)
       case Booted(image) => s.restarted && s.handle == Shut && VersionRecorded(s.calls, image)
       case Dead => s.checked && !s.handle.Open? && !s.restarted
       case _ => false
  }

  /** In a log without a begin there is none to look for. */
  lemma {:induction false} FreshHasNoBegin(log: seq<Call>)
    requires PhaseOf(log) == Fresh
    ensures forall k :: 0 <= k < |log| ==> !log[k].Begin?
  {
    if log == [] {
    } else {
      FreshHasNoBegin(log[..|log| - 1]);
      assert log == log[..|log| - 1] + [log[|log| - 1]];
    }
  }

  lemma WriteKeepsInv(s: Ota, data: seq<byte>, p: Platform)
    requires OtaInv(s) && s.checked && !s.restarted && s.state == Active
    ensures var t := WritePacket(s, data, p); OtaInv(t.(state := t.nextState))
  {
    PhaseAppend(s.calls, Write(data, true));
    PhaseAppend2(s.calls, Write(data, false), Abort);
    if s.handle.Open? {
      VersionIsInFirstPacket(s.handle.written, data);
    }
  }

  /** A begin appended to a fresh log. */
  lemma BeginAppended(log: seq<Call>, begin: Call, image: seq<byte>)
    requires PhaseOf(log) == Fresh && HeadersAccepted(log)
    requires begin.Begin? && begin.version == VersionOf(image) && HeaderAccepted(begin)
    requires |image| > HEADERS + APP_DESC
    ensures HeadersAccepted(log + [begin]) && VersionRecorded(log + [begin], image)
    ensures PhaseOf(log + [begin]) == (if begin.ok then Writing([]) else Dead)
  {
    hide VersionOf, Newer;
    FreshHasNoBegin(log);
    PhaseAppend(log, begin);
  }

  lemma RefusedHeaderKeepsInv(s: Ota)
    requires OtaInv(s) && !s.checked && !s.restarted
    ensures OtaInv(s.(nextState := Idle, state := Idle))
  {
  }

  lemma BegunLog(log: seq<Call>, data: seq<byte>)
    requires PhaseOf(log) == Writing([])
    ensures PhaseOf(log + [Write(data, true)]) == Writing(data)
    ensures PhaseOf(log + [Write(data, false), Abort]) == Dead
  {
    PhaseAppend(log, Write(data, true));
    PhaseAppend2(log, Write(data, false), Abort);
    assert [] + data == data;
  }

  lemma BegunKeepsInv(s: Ota, data: seq<byte>, begin: Call, p: Platform)
    requires OtaInv(s) && !s.checked && !s.restarted && s.state == Active
    requires begin.Begin? && begin.ok == p.beginOk
    requires HeadersAccepted(s.calls + [begin]) && VersionRecorded(s.calls + [begin], data)
    requires PhaseOf(s.calls + [begin]) == (if begin.ok then Writing([]) else Dead)
    ensures var begun := s.(checked := true, calls := s.calls + [begin]);
      var t := if p.beginOk then WritePacket(begun.(handle := Open([])), data, p) else begun.(nextState := Idle);
      OtaInv(t.(state := t.nextState))
  {
    hide HeadersAccepted, VersionRecorded;
    assert PhaseOf(s.calls) == Fresh;
    var log := s.calls + [begin];
    if p.beginOk {
      BegunLog(log, data);
      NoBeginAppended(log, [Write(data, true)], data);
      NoBeginAppended(log, [Write(data, false), Abort], data);
      assert [] + data == data;
    }
  }

  lemma FirstPacketKeepsInv(s: Ota, data: seq<byte>, running: seq<byte>, p: Platform)
    requires OtaInv(s) && !s.checked && !s.restarted && s.state == Active
    ensures var t := CheckAndWrite(s, data, running, p); OtaInv(t.(state := t.nextState))
  {
    var version := VersionOf(data);
    var against := Against(running, p);
    if |data| > HEADERS + APP_DESC && Newer(version, against) && p.lastInvalid != Some(version) {
      var begin := Begin(version, against, p.lastInvalid, p.beginOk);
      BeginAppended(s.calls, begin, data);
      BegunKeepsInv(s, data, begin, p);
    } else {
      RefusedHeaderKeepsInv(s);
    }
  }

  /** The three ways a completed log can go on from an open handle. */
  lemma CompletedLog(log: seq<Call>)
    requires PhaseOf(log).Writing?
    ensures PhaseOf(log + [End(false)]) == Dead
    ensures PhaseOf(log + [End(true), SetBoot(false)]) == Dead
    ensures PhaseOf(log + [End(true), SetBoot(true), Restart]) == Booted(PhaseOf(log).image)
  {
    PhaseAppend(log, End(false));
    PhaseAppend2(log, End(true), SetBoot(false));
    PhaseAppend(log, End(true));
    PhaseAppend2(log + [End(true)], SetBoot(true), Restart);
    assert log + [End(true), SetBoot(true), Restart] == log + [End(true)] + [SetBoot(true), Restart];
  }

  lemma NoBeginAppended(log: seq<Call>, more: seq<Call>, image: seq<byte>)
    requires HeadersAccepted(log) && forall k :: 0 <= k < |more| ==> !more[k].Begin?
    ensures HeadersAccepted(log + more)
    ensures VersionRecorded(log, image) ==> VersionRecorded(log + more, image)
  {
    hide VersionOf, Newer;
  }

  lemma FinishKeepsInv(s: Ota, p: Platform)
    requires OtaInv(s) && !s.restarted && s.state == Active
    ensures var t := Finish(s, p); OtaInv(if t.restarted then t else t.(state := t.nextState))
  {
    var more :=
      if s.handle.Open? && p.endOk then
        if p.bootOk then [End(true), SetBoot(true), Restart] else [End(true), SetBoot(false)]
      else [End(false)];
    var image := if s.handle.Open? then s.handle.written else [];
    NoBeginAppended(s.calls, more, image);
    var log := s.calls + more;
    if s.handle.Open? {
      CompletedLog(s.calls);
      assert PhaseOf(log) == if p.endOk && p.bootOk then Booted(image) else Dead;
    } else {
      PhaseAppend(s.calls, End(false));
      assert PhaseOf(log) == PhaseOf(s.calls);
    }
    assert Finish(s, p).calls == log;
  }

  lemma MessageKeepsInv(s: Ota, m: Message<seq<byte>>, running: seq<byte>, p: Platform)
    requires OtaInv(s) && !s.restarted
    ensures OtaInv(Handled(s, m, running, p))
  {
    if s.state == Active {
      match m {
        case Packet(data) =>
          if s.checked {
            WriteKeepsInv(s, data, p);
          } else {
            FirstPacketKeepsInv(s, data, running, p);
          }
        case Complete => FinishKeepsInv(s, p);
        case Start =>
      }
    }
  }

  lemma {:induction false} BootKeepsInv(s: Ota, inbox: seq<Delivery>, running: seq<byte>)
    requires OtaInv(s)
    ensures OtaInv(Served(s, inbox, running))
    decreases inbox
  {
    if s.restarted || inbox == [] {
    } else {
      MessageKeepsInv(s, inbox[0].message, running, inbox[0].platform);
      BootKeepsInv(Handled(s, inbox[0].message, running, inbox[0].platform), inbox[1..], running);
    }
  }

  lemma BootIsSafe()
    ensures OtaInv(OTA_BOOT)
  {
  }

  // ---------------------------------------------------------------- main results

  /** Over any messages and answers of one boot: an update is begun at most once, for a header that
      is newer and not the last invalid one, and the boot partition is set at most once. */
  lemma OneAttemptPerBoot(inbox: seq<Delivery>, running: seq<byte>)
    ensures var log := Served(OTA_BOOT, inbox, running).calls;
      && Intact(log) && HeadersAccepted(log)
      && Switches(log) <= Begins(log) <= 1
  {
    BootKeepsInv(OTA_BOOT, inbox, running);
    AtMostOneAttempt(Served(OTA_BOOT, inbox, running).calls);
  }

  /** A boot that set the boot partition did so right after a successful end of exactly the writes
      that followed its one begin, and a boot that restarted switched to their joined bytes, whose
      version is the accepted one. */
  lemma RestartIsEarned(inbox: seq<Delivery>, running: seq<byte>) returns (from: nat, at: nat)
    requires Served(OTA_BOOT, inbox, running).restarted
    ensures var log := Served(OTA_BOOT, inbox, running).calls;
      && at < |log| && log[at] == SetBoot(true) && 1 <= from < at && log[at - 1] == End(true)
      && WritesSince(log, from, at - 1)
      && PhaseOf(log) == Booted(Joined(log[from..at - 1]))
      && log[from - 1].version == VersionOf(Joined(log[from..at - 1]))
      && HeaderAccepted(log[from - 1])
  {
    BootKeepsInv(OTA_BOOT, inbox, running);
    var log := Served(OTA_BOOT, inbox, running).calls;
    at := SwitchOf(log);
    from := SwitchIsEarned(log, at);
  }

  lemma {:induction false} SwitchOf(log: seq<Call>) returns (at: nat)
    requires PhaseOf(log).Booted?
    ensures at < |log| && log[at] == SetBoot(true) && PhaseOf(log[..at]) == Sealed(PhaseOf(log).image)
  {
    var front, last := log[..|log| - 1], log[|log| - 1];
    if last.Restart? {
      at := SwitchOf(front);
      assert front[..at] == log[..at];
    } else {
      at := |log| - 1;
    }
  }

  /** A log that goes on with refused calls only. */
  predicate OnlyRefused(before: seq<Call>, after: seq<Call>) {
    && |before| <= |after| && after[..|before|] == before
    && forall k :: |before| <= k < |after| ==> Refused(after[k])
  }

  lemma OnlyRefusedTransitive(a: seq<Call>, b: seq<Call>, c: seq<Call>)
    requires OnlyRefused(a, b) && OnlyRefused(b, c)
    ensures OnlyRefused(a, c)
  {
    assert c[..|a|] == c[..|b|][..|a|];
    forall k | |a| <= k < |c| ensures Refused(c[k]) {
      assert k < |b| ==> c[k] == c[..|b|][k];
    }
  }

  lemma DeadServesNothing(s: Ota, m: Message<seq<byte>>, running: seq<byte>, p: Platform)
    requires OtaInv(s) && PhaseOf(s.calls) == Dead
    ensures var t := Handled(s, m, running, p);
      OtaInv(t) && !t.restarted && t.length == s.length && PhaseOf(t.calls) == Dead && OnlyRefused(s.calls, t.calls)
  {
    hide HeadersAccepted, VersionRecorded;
    MessageKeepsInv(s, m, running, p);
    assert s.checked && !s.handle.Open? && !s.restarted;
    var t := Handled(s, m, running, p);
    assert t.checked && !t.handle.Open? && !t.restarted;
    assert t.calls[..|s.calls|] == s.calls;
  }

  /** Once the single attempt has failed, nothing that arrives during this boot writes, switches or
      restarts any more. */
  lemma {:induction false} FailedAttemptIsFinal(s: Ota, inbox: seq<Delivery>, running: seq<byte>)
    requires OtaInv(s) && PhaseOf(s.calls) == Dead
    ensures var t := Served(s, inbox, running);
      !t.restarted && t.length == s.length && PhaseOf(t.calls) == Dead && OnlyRefused(s.calls, t.calls)
    decreases inbox
  {
    hide Handled, OnlyRefused;
    if inbox != [] {
      var next := Handled(s, inbox[0].message, running, inbox[0].platform);
      DeadServesNothing(s, inbox[0].message, running, inbox[0].platform);
      DeadNotRestarted(s);
      FailedAttemptIsFinal(next, inbox[1..], running);
      OnlyRefusedTransitive(s.calls, next.calls, Served(next, inbox[1..], running).calls);
    } else {
      DeadNotRestarted(s);
    }
  }

  lemma DeadNotRestarted(s: Ota)
    requires OtaInv(s) && PhaseOf(s.calls) == Dead
    ensures !s.restarted && OnlyRefused(s.calls, s.calls)
  {
  }
}
