/** The update service object: `ota_task` and the flash calls it makes, updated in place. */
module OtaService {
  import opened Options
  import opened Versions
  import opened OtaModel

  class OtaService {
    var state: OtaState
    var nextState: OtaState
    var partition: bool
    var imageHeaderWasChecked: bool
    var handle: Handle
    var binaryFileLength: nat
    var restarted: bool
    var calls: seq<Call>

    function State(): Ota
      reads this
    {
      Ota(state, nextState, partition, imageHeaderWasChecked, handle, binaryFileLength, restarted, calls)
    }

    constructor ()
      ensures State() == OTA_BOOT
    {
      state, nextState, partition, imageHeaderWasChecked := Idle, Idle, false, false;
      handle, binaryFileLength, restarted, calls := NeverOpened, 0, false, [];
    }

    // ---------------------------------------------------------------- flash

    method FlashBegin(version: seq<byte>, against: seq<byte>, p: Platform) returns (ok: bool)
      modifies this`handle, this`calls
      ensures ok == p.beginOk
      ensures handle == if ok then Open([]) else old(handle)
      ensures calls == old(calls) + [Begin(version, against, p.lastInvalid, ok)]
    {
      ok := p.beginOk;
      if ok {
        handle := Open([]);
      }
      calls := calls + [Begin(version, against, p.lastInvalid, ok)];
    }

    method FlashWrite(data: seq<byte>, p: Platform) returns (ok: bool)
      modifies this`handle, this`calls
      ensures ok <==> old(handle).Open? && p.writeOk
      ensures handle == if ok then Open(old(handle).written + data) else old(handle)
      ensures calls == old(calls) + [Write(data, ok)]
    {
      ok := handle.Open? && p.writeOk;
      if ok {
        handle := Open(handle.written + data);
      }
      calls := calls + [Write(data, ok)];
    }

    method FlashAbort()
      modifies this`handle, this`calls
      ensures handle == if old(handle).Open? then Shut else old(handle)
      ensures calls == old(calls) + [Abort]
    {
      if handle.Open? {
        handle := Shut;
      }
      calls := calls + [Abort];
    }

    method FlashEnd(p: Platform) returns (ok: bool)
      modifies this`handle, this`calls
      ensures ok <==> old(handle).Open? && p.endOk
      ensures handle == if old(handle).Open? then Shut else old(handle)
      ensures calls == old(calls) + [End(ok)]
    {
      ok := handle.Open? && p.endOk;
      if handle.Open? {
        handle := Shut;
      }
      calls := calls + [End(ok)];
    }

    // ---------------------------------------------------------------- the worker

    /** One iteration of the worker's loop. */
    method HandleMessage(m: Message<seq<byte>>, running: seq<byte>, p: Platform)
      modifies this
      ensures State() == Handled(old(State()), m, running, p)
    {
      match state {
        case Idle =>
          if m.Start? {
            partition := p.partitionFound;
            if partition {
              nextState := Active;
            }
          }
        case Active =>
          match m {
            case Packet(data) => HandlePacket(data, running, p);
            case Complete => HandleCompletion(p);
            case Start =>
          }
      }
      if restarted {
        return;
      }
      state := nextState;
    }

    method HandlePacket(data: seq<byte>, running: seq<byte>, p: Platform)
      modifies this
      ensures State() == if old(imageHeaderWasChecked) then WritePacket(old(State()), data, p)
                         else CheckAndWrite(old(State()), data, running, p)
    {
      if !imageHeaderWasChecked {
        if |data| > HEADERS + APP_DESC {
          var newVersion := VersionOf(data);
          var runningVersion := if p.described then running else p.garbage;
          if !Newer(newVersion, runningVersion) {
            nextState := Idle;
            return;
          }
          if p.lastInvalid == Some(newVersion) {
            nextState := Idle;
            return;
          }
          imageHeaderWasChecked := true;
          var begun := FlashBegin(newVersion, runningVersion, p);
          if !begun {
            nextState := Idle;
            return;
          }
        } else {
          nextState := Idle;
          return;
        }
      }
      label beforeWrite:
      var ok := FlashWrite(data, p);
      if !ok {
        FlashAbort();
        nextState := Idle;
        assert calls == old@beforeWrite(calls) + [Write(data, false), Abort];
        return;
      }
      binaryFileLength := binaryFileLength + |data|;
    }

    method HandleCompletion(p: Platform)
      modifies this
      ensures State() == Finish(old(State()), p)
    {
      var ended := FlashEnd(p);
      if !ended {
        nextState := Idle;
        return;
      }
      calls := calls + [SetBoot(p.bootOk)];
      if !p.bootOk {
        nextState := Idle;
        assert calls == old(calls) + [End(true), SetBoot(false)];
        return;
      }
      calls := calls + [Restart];
      restarted := true;
      assert calls == old(calls) + [End(true), SetBoot(true), Restart];
    }

    /** The worker's loop over the messages it dequeues, until none is left or the device restarts. */
    method ServeAll(inbox: seq<Delivery>, running: seq<byte>)
      modifies this
      ensures State() == Served(old(State()), inbox, running)
    {
      var i := 0;
      while i < |inbox| && !restarted
        invariant 0 <= i <= |inbox|
        invariant Served(State(), inbox[i..], running) == Served(old(State()), inbox, running)
      {
        assert inbox[i..][0] == inbox[i] && inbox[i..][1..] == inbox[i + 1..];
        HandleMessage(inbox[i].message, running, inbox[i].platform);
        i := i + 1;
      }
    }
  }
}
