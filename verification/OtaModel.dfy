/** The update service: a two-state machine that turns messages into flash calls. */
module OtaModel {
  import opened Options
  import opened Versions

  datatype Message<+D> = Start | Packet(data: D) | Complete

  datatype OtaState = Idle | Active

  /** The update handle. Flash calls reject a handle that is not open; ending or aborting an open
      one shuts it whatever the result. */
  datatype Handle = NeverOpened | Open(written: seq<byte>) | Shut

  /** A flash call and its result; `Begin` also records what the header was checked against. */
  datatype Call =
    | Begin(version: seq<byte>, against: seq<byte>, invalid: Option<seq<byte>>, ok: bool)
    | Write(data: seq<byte>, ok: bool)
    | Abort
    | End(ok: bool)
    | SetBoot(ok: bool)
    | Restart

  /** What the platform answers while one message is handled. `garbage` is what the description of
      the running image holds when it could not be read. */
  datatype Platform = Platform(
    partitionFound: bool,
    described: bool,
    garbage: seq<byte>,
    lastInvalid: Option<seq<byte>>,
    beginOk: bool,
    writeOk: bool,
    endOk: bool,
    bootOk: bool)

  datatype Ota = Ota(
    state: OtaState,
    nextState: OtaState,
    partition: bool,
    checked: bool,
    handle: Handle,
    length: nat,
    restarted: bool,
    calls: seq<Call>)

  const OTA_BOOT := Ota(Idle, Idle, false, false, NeverOpened, 0, false, [])

  // ---------------------------------------------------------------- one message

  function WritePacket(s: Ota, data: seq<byte>, p: Platform): Ota {
    if s.handle.Open? && p.writeOk then
      s.(handle := Open(s.handle.written + data),
         length := s.length + |data|,
         calls := s.calls + [Write(data, true)])
    else
      s.(handle := if s.handle.Open? then Shut else s.handle,
         nextState := Idle,
         calls := s.calls + [Write(data, false), Abort])
  }

  /** What `running_app_info` holds when the versions are compared. */
  function Against(running: seq<byte>, p: Platform): seq<byte> {
    if p.described then running else p.garbage
  }

  /** The first packet of the first attempt must hold the whole description of a newer image. */
  function CheckAndWrite(s: Ota, data: seq<byte>, running: seq<byte>, p: Platform): Ota {
    var version := VersionOf(data);
    var against := Against(running, p);
    if |data| <= HEADERS + APP_DESC then s.(nextState := Idle)
    else if !Newer(version, against) then s.(nextState := Idle)
    else if p.lastInvalid == Some(version) then s.(nextState := Idle)
    else
      var begun := s.(checked := true, calls := s.calls + [Begin(version, against, p.lastInvalid, p.beginOk)]);
      if p.beginOk then WritePacket(begun.(handle := Open([])), data, p)
      else begun.(nextState := Idle)
  }

  function Finish(s: Ota, p: Platform): Ota {
    if s.handle.Open? && p.endOk then
      if p.bootOk then
        s.(handle := Shut, restarted := true, calls := s.calls + [End(true), SetBoot(true), Restart])
      else
        s.(handle := Shut, nextState := Idle, calls := s.calls + [End(true), SetBoot(false)])
    else
      s.(handle := if s.handle.Open? then Shut else s.handle,
         nextState := Idle,
         calls := s.calls + [End(false)])
  }

  function Handled(s: Ota, m: Message<seq<byte>>, running: seq<byte>, p: Platform): Ota {
    var t :=
      match s.state
      case Idle =>
        if m.Start? then
          s.(partition := p.partitionFound, nextState := if p.partitionFound then Active else s.nextState)
        else s
      case Active => (
        match m
        case Packet(data) =>
          if s.checked then WritePacket(s, data, p) else CheckAndWrite(s, data, running, p)
        case Complete => Finish(s, p)
        case Start => s);
    if t.restarted then t else t.(state := t.nextState)
  }

  /** A message with the platform's answers to it. */
  datatype Delivery = Delivery(message: Message<seq<byte>>, platform: Platform)

  /** The service's loop over the messages of one boot; a restart ends it. */
  function Served(s: Ota, inbox: seq<Delivery>, running: seq<byte>): Ota
    decreases inbox
  {
    if s.restarted || inbox == [] then s
    else Served(Handled(s, inbox[0].message, running, inbox[0].platform), inbox[1..], running)
  }

  lemma {:induction false} ServedCompose(s: Ota, front: seq<Delivery>, back: seq<Delivery>, running: seq<byte>)
    ensures Served(s, front + back, running) == Served(Served(s, front, running), back, running)
    decreases front
  {
    if s.restarted || front == [] {
      assert front == [] ==> front + back == back;
    } else {
      assert (front + back)[1..] == front[1..] + back;
      ServedCompose(Handled(s, front[0].message, running, front[0].platform), front[1..], back, running);
    }
  }
}
