/** Whole-process runs of the module, driven the way the host drives it:
    `onLoad`, `preAppSpecialize`, then `postAppSpecialize`, followed by
    property reads from some watcher in the specialized app. */
module Scenarios {
  import opened Int32Codec
  import opened CompanionChannel
  import opened SystemProperty
  import opened PropertyHook
  import opened Specialization

  /** The unstable GMS sub-process is the one the payload is meant for; an
      app such as `com.example.other` is not in the GMS package at all. */
  lemma ExampleProcessNames()
    ensures IsTargetProcess("com.google.android.gms.unstable")
    ensures !IsGmsProcess("com.example.other")
  {
    var name := "com.google.android.gms.unstable";
    assert name[..|GMS_PACKAGE|] == GMS_PACKAGE;
    assert name[|name| - |UNSTABLE_SUFFIX|..] == UNSTABLE_SUFFIX;
    assert |"com.example.other"| < |GMS_PACKAGE|;
  }

  /** The target process, a companion holding a non-empty artifact, a
      device whose first API level is `level` and a resolvable symbol, run
      through the module's methods against the process's `hook`: the module
      denies the mount, asks to be unloaded only when `level` is at most 32,
      connects to the companion, installs the hook only when `level` exceeds
      32, and loads the artifact, byte for byte, last. */
  method TargetProcessRun(process: string, level: nat, artifact: seq<byte>, hook: Interceptor)
    returns (events: seq<Event>)
    requires IsTargetProcess(process)
    requires level <= INT32_MAX && 0 < |artifact| <= INT32_MAX
    requires !hook.installed
    modifies hook
    ensures events == [SetOption(ForceDenylistUnmount)]
                    + (if level > 32 then [] else [SetOption(DlcloseModuleLibrary)])
                    + [ConnectCompanion]
                    + (if level > 32 then [InstallHook] else [])
                    + [LoadPayload(artifact)]
    ensures hook.installed == (level > 32)
    ensures hook.savedCallback == old(hook.savedCallback) && hook.deliveries == old(hook.deliveries)
  {
    var pif := new PlayIntegrityFix(true);
    pif.OnLoad();
    var value, reply := Numeral(level), Companion(artifact);
    assert PreAppInputsDefined(process, |value|, value, reply) by {
      FirstApiLevelOfNumeral(level);
      FrameRoundTrip([], artifact);
    }
    pif.PreAppSpecialize(process, |value|, value, reply);
    ghost var pre := pif.State();
    pif.PostAppSpecialize(true, hook);
    assert pif.events == [SetOption(ForceDenylistUnmount)]
                       + (if level > 32 then [] else [SetOption(DlcloseModuleLibrary)])
                       + [ConnectCompanion]
                       + (if level > 32 then [InstallHook] else [])
                       + [LoadPayload(artifact)]
        && pre.hookProps == (level > 32) && pre.dexFile != [] by {
      TargetEndToEnd(process, level, artifact);
      FirstApiLevelOfNumeral(level);
    }
    events := pif.events;
  }

  /** The target process run as above, followed by reads from a watcher in
      the specialized app through the same process-wide hook: reading the
      first API level it is told "32" when the run installed the hook
      (`level` above 32) and the device's own value otherwise, and every
      other property reaches it untouched either way. */
  method TargetProcessReads(process: string, level: nat, artifact: seq<byte>,
                            watcher: ClientCallback, cookie: nat, serial: nat, other: PropInfo)
    returns (events: seq<Event>, hooked: bool, seen: Delivery, seenOther: Delivery)
    requires IsTargetProcess(process)
    requires level <= INT32_MAX && 0 < |artifact| <= INT32_MAX
    requires other.name != FIRST_API_LEVEL
    ensures events == [SetOption(ForceDenylistUnmount)]
                    + (if level > 32 then [] else [SetOption(DlcloseModuleLibrary)])
                    + [ConnectCompanion]
                    + (if level > 32 then [InstallHook] else [])
                    + [LoadPayload(artifact)]
    ensures hooked == (level > 32)
    ensures seen == Delivery(watcher, CallbackArgs(cookie, FIRST_API_LEVEL,
                                                   if level > 32 then OVERRIDE_VALUE else Numeral(level), serial))
    ensures seenOther == Delivery(watcher, CallbackArgs(cookie, other.name, other.value, other.serial))
  {
    var hook := new Interceptor();
    events := TargetProcessRun(process, level, artifact, hook);
    hooked := hook.installed;
    hook.ReadCallback(PropInfo(FIRST_API_LEVEL, Numeral(level), serial), watcher, cookie);
    seen := hook.deliveries[|hook.deliveries| - 1];
    hook.ReadCallback(other, watcher, cookie);
    seenOther := hook.deliveries[|hook.deliveries| - 1];
  }

  /** An app outside the GMS package only asks to be unloaded: no
      connection, no payload and no hook, whatever the companion, the
      property and the hooking engine would have given. */
  method UnrelatedAppRun(process: string, apiLength: int, apiValue: string, reply: seq<byte>, resolved: bool)
    returns (events: seq<Event>, hooked: bool)
    requires !IsGmsProcess(process)
    ensures events == [SetOption(DlcloseModuleLibrary)] && !hooked
  {
    var hook := new Interceptor();
    var pif := new PlayIntegrityFix(true);
    pif.OnLoad();
    pif.PreAppSpecialize(process, apiLength, apiValue, reply);
    pif.PostAppSpecialize(resolved, hook);
    events, hooked := pif.events, hook.installed;
  }

  /** The unstable GMS process on a device whose first API level is 33: the
      mount is denied, the module stays loaded, the companion is contacted,
      the hook goes in and the artifact is loaded; a watcher then reads the
      first API level as "32" and any other property as it is. */
  method UnstableProcessOnApi33(artifact: seq<byte>, watcher: ClientCallback, cookie: nat, serial: nat,
                                other: PropInfo)
    returns (events: seq<Event>, hooked: bool, seen: Delivery, seenOther: Delivery)
    requires 0 < |artifact| <= INT32_MAX
    requires other.name != FIRST_API_LEVEL
    ensures events == [SetOption(ForceDenylistUnmount), ConnectCompanion, InstallHook, LoadPayload(artifact)]
    ensures hooked
    ensures seen == Delivery(watcher, CallbackArgs(cookie, FIRST_API_LEVEL, "32", serial))
    ensures seenOther == Delivery(watcher, CallbackArgs(cookie, other.name, other.value, other.serial))
  {
    ExampleProcessNames();
    events, hooked, seen, seenOther := TargetProcessReads("com.google.android.gms.unstable", 33, artifact,
                                                 watcher, cookie, serial, other);
  }

  /** The unstable GMS process on a device whose first API level is 30: the
      artifact is still fetched and loaded, but the module asks to be
      unloaded, the hook is never installed, and a watcher reads "30" and
      any other property as it is. */
  method UnstableProcessOnApi30(artifact: seq<byte>, watcher: ClientCallback, cookie: nat, serial: nat,
                                other: PropInfo)
    returns (events: seq<Event>, hooked: bool, seen: Delivery, seenOther: Delivery)
    requires 0 < |artifact| <= INT32_MAX
    requires other.name != FIRST_API_LEVEL
    ensures events == [SetOption(ForceDenylistUnmount), SetOption(DlcloseModuleLibrary),
                       ConnectCompanion, LoadPayload(artifact)]
    ensures !hooked
    ensures seen == Delivery(watcher, CallbackArgs(cookie, FIRST_API_LEVEL, "30", serial))
    ensures seenOther == Delivery(watcher, CallbackArgs(cookie, other.name, other.value, other.serial))
  {
    ExampleProcessNames();
    assert Numeral(30) == "30" by {
      assert Numeral(3) == "3";
    }
    events, hooked, seen, seenOther := TargetProcessReads("com.google.android.gms.unstable", 30, artifact,
                                                 watcher, cookie, serial, other);
  }

  /** `com.example.other`, whatever the companion would send. */
  method OtherAppRun(reply: seq<byte>, resolved: bool) returns (events: seq<Event>, hooked: bool)
    ensures events == [SetOption(DlcloseModuleLibrary)] && !hooked
  {
    ExampleProcessNames();
    events, hooked := UnrelatedAppRun("com.example.other", 2, "33", reply, resolved);
  }
}
