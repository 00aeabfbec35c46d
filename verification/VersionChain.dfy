/** Versions over many boots: they increase, and exactly how far that depends on the description of
    the running image being read. */
module VersionChain {
  import opened Options
  import opened Versions
  import opened OtaModel
  import opened OtaSafety
  import opened OtaInstall

  /** The version running after a boot: that of the image it switched to, if it restarted. */
  function NextRunning(running: seq<byte>, inbox: seq<Delivery>): seq<byte> {
    var end := Served(OTA_BOOT, inbox, running);
    if end.restarted && PhaseOf(end.calls).Booted? then VersionOf(PhaseOf(end.calls).image) else running
  }

  /** The first version, then every version a boot switched to. */
  function Installed(running: seq<byte>, boots: seq<seq<Delivery>>): seq<seq<byte>>
    decreases boots
  {
    if boots == [] then [running]
    else if Served(OTA_BOOT, boots[0], running).restarted then
      [running] + Installed(NextRunning(running, boots[0]), boots[1..])
    else Installed(running, boots[1..])
  }

  // ---------------------------------------------------------------- one boot

  /** The header check is about to compare versions: the only time the running description is asked
      for. */
  predicate Asks(s: Ota, m: Message<seq<byte>>) {
    s.state == Active && !s.checked && m.Packet? && |m.data| > HEADERS + APP_DESC
  }

  /** The running version was read, or what was compared instead is not older. */
  predicate Trusted(running: seq<byte>, p: Platform) {
    p.described || !Newer(running, p.garbage)
  }

  /** Every answer that the header check asked for can be trusted. */
  predicate AnswersTrusted(s: Ota, inbox: seq<Delivery>, running: seq<byte>)
    decreases inbox
  {
    s.restarted || inbox == [] ||
    (var d := inbox[0];
     (Asks(s, d.message) ==> Trusted(running, d.platform)) &&
     AnswersTrusted(Handled(s, d.message, running, d.platform), inbox[1..], running))
  }

  /** Nothing was begun against a version older than the running one. */
  predicate CheckedAgainst(log: seq<Call>, running: seq<byte>) {
    forall k :: 0 <= k < |log| && log[k].Begin? ==> !Newer(running, log[k].against)
  }

  lemma {:induction false} HeadersCheckedAgainst(s: Ota, inbox: seq<Delivery>, running: seq<byte>)
    requires AnswersTrusted(s, inbox, running) && CheckedAgainst(s.calls, running)
    ensures CheckedAgainst(Served(s, inbox, running).calls, running)
    decreases inbox
  {
    hide CheckedAgainst, Handled, Asks, Trusted;
    if s.restarted || inbox == [] {
    } else {
      HeaderCheckedAgainst(s, inbox[0], running);
      HeadersCheckedAgainst(Handled(s, inbox[0].message, running, inbox[0].platform), inbox[1..], running);
    }
  }

  lemma HeaderCheckedAgainst(s: Ota, d: Delivery, running: seq<byte>)
    requires Asks(s, d.message) ==> Trusted(running, d.platform)
    requires CheckedAgainst(s.calls, running)
    ensures CheckedAgainst(Handled(s, d.message, running, d.platform).calls, running)
  {
    hide Newer, Handled, Asks;
    BeginAsks(s, d, running);
    NewerIsStrictTotalOrder(running, running, running);
  }

  /** A begin is only added for a packet whose header was checked, with what was read. */
  lemma BeginAsks(s: Ota, d: Delivery, running: seq<byte>)
    ensures var t := Handled(s, d.message, running, d.platform);
      s.calls <= t.calls &&
      forall k :: |s.calls| <= k < |t.calls| && t.calls[k].Begin?
        ==> Asks(s, d.message) && t.calls[k].against == Against(running, d.platform)
  {
    hide Newer, VersionOf, CheckAndWrite;
    if s.state == Active && !s.checked && d.message.Packet? {
      CheckBegins(s, d.message.data, running, d.platform);
    }
  }

  lemma CheckBegins(s: Ota, data: seq<byte>, running: seq<byte>, p: Platform)
    ensures var t := CheckAndWrite(s, data, running, p);
      s.calls <= t.calls &&
      forall k :: |s.calls| <= k < |t.calls| && t.calls[k].Begin?
        ==> |data| > HEADERS + APP_DESC && t.calls[k].against == Against(running, p)
  {
    hide Newer, VersionOf;
  }

  lemma NewerThanNotOlder(v: seq<byte>, against: seq<byte>, running: seq<byte>)
    requires Newer(v, against) && !Newer(running, against)
    ensures Newer(v, running)
  {
    NewerIsStrictTotalOrder(v, against, running);
    NewerIsStrictTotalOrder(against, running, v);
  }

  /** A boot that restarts runs a strictly newer version afterwards, if what the header check was
      told can be trusted. */
  lemma RestartUpgrades(running: seq<byte>, inbox: seq<Delivery>)
    requires AnswersTrusted(OTA_BOOT, inbox, running) && Served(OTA_BOOT, inbox, running).restarted
    ensures Newer(NextRunning(running, inbox), running)
  {
    hide Newer, VersionOf, AnswersTrusted;
    var log := Served(OTA_BOOT, inbox, running).calls;
    var from, at := RestartIsEarned(inbox, running);
    HeadersCheckedAgainst(OTA_BOOT, inbox, running);
    NewerThanNotOlder(log[from - 1].version, log[from - 1].against, running);
  }

  /** Every attempt to read the running description ends as in `p`. */
  predicate ReadsAs(inbox: seq<Delivery>, p: Platform) {
    forall k :: 0 <= k < |inbox| ==>
      inbox[k].platform.described == p.described && inbox[k].platform.garbage == p.garbage
  }

  lemma {:induction false} TrustedThroughout(s: Ota, inbox: seq<Delivery>, running: seq<byte>, p: Platform)
    requires ReadsAs(inbox, p) && Trusted(running, p)
    ensures AnswersTrusted(s, inbox, running)
    decreases inbox
  {
    hide Handled, Newer;
    if s.restarted || inbox == [] {
    } else {
      TrustedThroughout(Handled(s, inbox[0].message, running, inbox[0].platform), inbox[1..], running, p);
    }
  }

  /** A boot without failures in which an image of the version is uploaded. */
  function UploadOf(version: seq<byte>, p: Platform): seq<Delivery> {
    Deliveries([Start, Packet(ImageWith(version)), Complete],
               Platform(true, p.described, p.garbage, None, true, true, true, true))
  }

  lemma VersionIsInstalled(version: seq<byte>, running: seq<byte>, p: Platform)
    requires IsVersion(version) && Newer(version, Against(running, p))
    ensures ReadsAs(UploadOf(version, p), p)
    ensures Served(OTA_BOOT, UploadOf(version, p), running).restarted
    ensures NextRunning(running, UploadOf(version, p)) == version
  {
    hide Served, PhaseOf;
    var first := ImageWith(version);
    var rest: seq<Message<seq<byte>>> := [];
    var answers := Platform(true, p.described, p.garbage, None, true, true, true, true);
    VersionsOfImages([], version);
    BootIsSafe();
    UploadIsInstalled(OTA_BOOT, first, rest, running, answers);
    assert [Start, Packet(first)] + rest + [Complete] == [Start, Packet(first), Complete];
    assert first + Payload(rest) == first;
  }

  /** Whatever is uploaded, a restart runs a newer version afterwards: exactly if the running
      description can be read, or what stands in its place is not older than the running version.
      Otherwise the running version itself can be installed again. */
  lemma UpgradesIffTrusted(running: seq<byte>, p: Platform)
    requires IsVersion(running)
    ensures (forall inbox :: ReadsAs(inbox, p) && Served(OTA_BOOT, inbox, running).restarted
              ==> Newer(NextRunning(running, inbox), running))
            <==> Trusted(running, p)
  {
    hide Newer, ReadsAs, Served, NextRunning;
    if Trusted(running, p) {
      forall inbox | ReadsAs(inbox, p) && Served(OTA_BOOT, inbox, running).restarted
        ensures Newer(NextRunning(running, inbox), running)
      {
        TrustedThroughout(OTA_BOOT, inbox, running, p);
        RestartUpgrades(running, inbox);
      }
    } else {
      VersionIsInstalled(running, running, p);
      NewerIsStrictTotalOrder(running, running, running);
    }
  }

  // ---------------------------------------------------------------- many boots

  /** In each boot, with the version then running. */
  predicate TrustedBoots(running: seq<byte>, boots: seq<seq<Delivery>>)
    decreases boots
  {
    boots == [] ||
    (AnswersTrusted(OTA_BOOT, boots[0], running) && TrustedBoots(NextRunning(running, boots[0]), boots[1..]))
  }

  lemma StaysWithoutRestart(running: seq<byte>, inbox: seq<Delivery>)
    requires !Served(OTA_BOOT, inbox, running).restarted
    ensures NextRunning(running, inbox) == running
  {
  }

  lemma {:induction false} InstalledAboveFirst(running: seq<byte>, boots: seq<seq<Delivery>>, j: nat)
    requires TrustedBoots(running, boots)
    requires j < |Installed(running, boots)|
    ensures Installed(running, boots)[0] == running
    ensures j > 0 ==> Newer(Installed(running, boots)[j], running)
    decreases boots
  {
    hide NextRunning, Newer, Served, AnswersTrusted;
    if boots == [] {
    } else {
      var next := NextRunning(running, boots[0]);
      if Served(OTA_BOOT, boots[0], running).restarted {
        RestartUpgrades(running, boots[0]);
        if j > 0 {
          InstalledAboveFirst(next, boots[1..], j - 1);
          if j > 1 {
            NewerIsTransitive(Installed(running, boots)[j], next, running);
          }
        }
      } else {
        StaysWithoutRestart(running, boots[0]);
        InstalledAboveFirst(running, boots[1..], j);
      }
    }
  }

  /** Over any number of boots, with any messages and failures in each, installed versions strictly
      increase, so none is ever installed twice. */
  lemma {:induction false} VersionsIncrease(running: seq<byte>, boots: seq<seq<Delivery>>, i: nat, j: nat)
    requires TrustedBoots(running, boots)
    requires i < j < |Installed(running, boots)|
    ensures Newer(Installed(running, boots)[j], Installed(running, boots)[i])
    ensures Installed(running, boots)[j] != Installed(running, boots)[i]
    decreases boots
  {
    hide NextRunning, Newer, Served, AnswersTrusted;
    var versions := Installed(running, boots);
    if i == 0 {
      InstalledAboveFirst(running, boots, j);
    } else if Served(OTA_BOOT, boots[0], running).restarted {
      VersionsIncrease(NextRunning(running, boots[0]), boots[1..], i - 1, j - 1);
    } else {
      StaysWithoutRestart(running, boots[0]);
      VersionsIncrease(running, boots[1..], i, j);
    }
    NewerIsStrictTotalOrder(versions[j], versions[i], versions[i]);
  }

  predicate Increasing(versions: seq<seq<byte>>) {
    forall i, j :: 0 <= i < j < |versions| ==> Newer(versions[j], versions[i])
  }

  predicate AllReadAs(boots: seq<seq<Delivery>>, p: Platform) {
    forall b :: 0 <= b < |boots| ==> ReadsAs(boots[b], p)
  }

  lemma {:induction false} BootsTrusted(running: seq<byte>, boots: seq<seq<Delivery>>, p: Platform)
    requires AllReadAs(boots, p) && p.described
    ensures TrustedBoots(running, boots)
    decreases boots
  {
    hide NextRunning, ReadsAs, AnswersTrusted;
    if boots == [] {
    } else {
      TrustedThroughout(OTA_BOOT, boots[0], running, p);
      BootsTrusted(NextRunning(running, boots[0]), boots[1..], p);
    }
  }

  /** Nothing is installed over garbage that no version is newer than. */
  lemma NothingAboveGarbage(running: seq<byte>, inbox: seq<Delivery>, p: Platform)
    requires ReadsAs(inbox, p) && !p.described && !Newer(TOP_VERSION, p.garbage)
    ensures !Served(OTA_BOOT, inbox, running).restarted
  {
    hide Newer, VersionOf, Served;
    if Served(OTA_BOOT, inbox, running).restarted {
      var from, at := RestartIsEarned(inbox, running);
      HeadersAgainstGarbage(OTA_BOOT, inbox, running, p);
      var log := Served(OTA_BOOT, inbox, running).calls;
      var image := Joined(log[from..at - 1]);
      VersionsOfImages(image, []);
      TopIsNewest(VersionOf(image));
      NewerThanNotOlder(VersionOf(image), p.garbage, TOP_VERSION);
    }
  }

  predicate BegunAgainst(log: seq<Call>, garbage: seq<byte>) {
    forall k :: 0 <= k < |log| && log[k].Begin? ==> log[k].against == garbage
  }

  lemma HeaderAgainstGarbage(s: Ota, d: Delivery, running: seq<byte>)
    requires BegunAgainst(s.calls, d.platform.garbage) && !d.platform.described
    ensures BegunAgainst(Handled(s, d.message, running, d.platform).calls, d.platform.garbage)
  {
    hide Handled, Asks;
    BeginAsks(s, d, running);
  }

  lemma {:induction false} HeadersAgainstGarbage(s: Ota, inbox: seq<Delivery>, running: seq<byte>, p: Platform)
    requires ReadsAs(inbox, p) && !p.described && BegunAgainst(s.calls, p.garbage)
    ensures BegunAgainst(Served(s, inbox, running).calls, p.garbage)
    decreases inbox
  {
    hide Handled, BegunAgainst;
    if s.restarted || inbox == [] {
    } else {
      assert inbox[0].platform.garbage == p.garbage;
      HeaderAgainstGarbage(s, inbox[0], running);
      HeadersAgainstGarbage(Handled(s, inbox[0].message, running, inbox[0].platform), inbox[1..], running, p);
    }
  }

  lemma {:induction false} NothingInstalled(running: seq<byte>, boots: seq<seq<Delivery>>, p: Platform)
    requires AllReadAs(boots, p) && !p.described && !Newer(TOP_VERSION, p.garbage)
    ensures Installed(running, boots) == [running]
    decreases boots
  {
    hide Newer, ReadsAs, Served;
    if boots == [] {
    } else {
      NothingAboveGarbage(running, boots[0], p);
      NothingInstalled(running, boots[1..], p);
    }
  }

  /** The same version twice in a row. */
  lemma InstalledTwice(running: seq<byte>, version: seq<byte>, p: Platform)
    requires IsVersion(version) && !p.described && Newer(version, p.garbage)
    ensures var boots := [UploadOf(version, p), UploadOf(version, p)];
      AllReadAs(boots, p) && Installed(running, boots) == [running, version, version]
  {
    hide Newer, ReadsAs, Served, NextRunning, UploadOf;
    var boot := UploadOf(version, p);
    VersionIsInstalled(version, running, p);
    VersionIsInstalled(version, version, p);
    assert [boot, boot][1..] == [boot] && [boot][1..] == [];
    assert Installed(version, [boot]) == [version] + Installed(version, []);
  }

  /** Over any boots that all read the running description, or all fail to and compare with the same
      garbage: installed versions increase in every case exactly if it is read, or the garbage is
      such that no image at all is accepted. */
  lemma IncreasesIffRead(running: seq<byte>, p: Platform)
    ensures (forall boots :: AllReadAs(boots, p) ==> Increasing(Installed(running, boots)))
            <==> (p.described || !Newer(TOP_VERSION, p.garbage))
  {
    hide Newer, AllReadAs, Installed, TOP_VERSION;
    if p.described {
      forall boots | AllReadAs(boots, p) ensures Increasing(Installed(running, boots)) {
        BootsTrusted(running, boots, p);
        var versions := Installed(running, boots);
        forall i: nat, j: nat | i < j < |versions| ensures Newer(versions[j], versions[i]) {
          VersionsIncrease(running, boots, i, j);
        }
      }
    } else if !Newer(TOP_VERSION, p.garbage) {
      forall boots | AllReadAs(boots, p) ensures Increasing(Installed(running, boots)) {
        NothingInstalled(running, boots, p);
      }
    } else {
      TopIsNewest([]);
      InstalledTwice(running, TOP_VERSION, p);
      NewerIsStrictTotalOrder(TOP_VERSION, TOP_VERSION, TOP_VERSION);
      var boots := [UploadOf(TOP_VERSION, p), UploadOf(TOP_VERSION, p)];
      var versions := Installed(running, boots);
      assert versions[1] == versions[2] == TOP_VERSION;
      assert AllReadAs(boots, p) && !Increasing(versions);
    }
  }
}
