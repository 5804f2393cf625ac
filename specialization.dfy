/** The zygisk module `PlayIntegrityFix`: one instance per forked process,
    driven by the host through `onLoad`, `preAppSpecialize` (before the
    process becomes the app), `postAppSpecialize` (after) and
    `preServerSpecialize`. Calls into the host API, the companion socket,
    the hooking engine and the Java runtime are recorded, in order, as
    events. */
module Specialization {
  import opened Int32Codec
  import opened CompanionChannel
  import opened SystemProperty
  import PropertyHook

  const GMS_PACKAGE: string := "com.google.android.gms"
  const UNSTABLE_SUFFIX: string := "unstable"

  /** The host options the module requests through `setOption`. */
  datatype ZygiskOption = DlcloseModuleLibrary | ForceDenylistUnmount

  /** The module's observable effects. `LoadPayload` stands for the whole
      Java sequence that class-loads the buffer and calls the entry
      point's `init`; it carries the bytes it was given. */
  datatype Event =
    | SetOption(option: ZygiskOption)
    | ConnectCompanion
    | InstallHook
    | LoadPayload(dex: seq<byte>)

  /** The instance's state: the `hookProps` flag, the `dexFile` buffer and
      the effects issued so far. */
  datatype Instance = Instance(hookProps: bool, dexFile: seq<byte>, events: seq<Event>)

  /** `std::string::starts_with`. */
  function StartsWith(s: string, prefix: string): (r: bool)
    ensures r <==> |prefix| <= |s| && forall i :: 0 <= i < |prefix| ==> s[i] == prefix[i]
  {
    prefix <= s
  }

  /** `std::string::ends_with`. */
  function EndsWith(s: string, suffix: string): (r: bool)
    ensures r <==> |suffix| <= |s| && forall i :: 0 <= i < |suffix| ==> s[|s| - |suffix| + i] == suffix[i]
  {
    |suffix| <= |s| && s[|s| - |suffix|..] == suffix
  }

  /** A process of the GMS package: its name begins with the package name. */
  function IsGmsProcess(process: string): (r: bool)
    ensures r <==> |GMS_PACKAGE| <= |process| && process[..|GMS_PACKAGE|] == GMS_PACKAGE
  {
    StartsWith(process, GMS_PACKAGE)
  }

  /** The process that gets the payload: a GMS process whose name ends in
      "unstable". */
  function IsTargetProcess(process: string): (r: bool)
    ensures r ==> IsGmsProcess(process)
    ensures r <==> (IsGmsProcess(process) && |UNSTABLE_SUFFIX| <= |process|
                    && process[|process| - |UNSTABLE_SUFFIX|..] == UNSTABLE_SUFFIX)
  {
    IsGmsProcess(process) && EndsWith(process, UNSTABLE_SUFFIX)
  }

  /** What the target branch demands of its inputs: an API level that
      `atoi` can represent (overflow is undefined in C) and a companion
      reply with a full, non-negative size header (a short header leaves
      `size` uninitialised, a negative one makes `resize` throw). */
  predicate PreAppInputsDefined(process: string, apiLength: int, apiValue: string, reply: seq<byte>) {
    IsTargetProcess(process) ==>
      (apiLength >= 1 ==> InInt32Range(Atoi(apiValue))) && WellFormedReply(reply)
  }

  /** The effects issued between two states of an instance. */
  function Added(s: Instance, t: Instance): seq<Event>
    requires s.events <= t.events
  {
    t.events[|s.events|..]
  }

  /** A later log is the earlier one followed by what was added. */
  lemma AddedAfter(s: Instance, t: Instance)
    requires s.events <= t.events
    ensures t.events == s.events + Added(s, t)
  {
  }

  /** The host calls `preAppSpecialize` makes, in order, for a process
      named `process`, given the `hookProps` value it computes. */
  function PreAppEffects(process: string, hookProps: bool): (added: seq<Event>)
    // the isolation request is made for GMS processes and only for them
    ensures SetOption(ForceDenylistUnmount) in added <==> IsGmsProcess(process)
    // unloading is requested unless this is the target and its props are to be hooked
    ensures SetOption(DlcloseModuleLibrary) in added <==> !(IsTargetProcess(process) && hookProps)
    // exactly one companion connection for the target, as its last call; none otherwise
    ensures !IsTargetProcess(process) ==> ConnectCompanion !in added
    ensures IsTargetProcess(process) ==>
      added != [] && added[|added| - 1] == ConnectCompanion && ConnectCompanion !in added[..|added| - 1]
    ensures forall e | e in added :: e.SetOption? || e.ConnectCompanion?
    // a non-GMS process only asks to be unloaded
    ensures !IsGmsProcess(process) ==> added == [SetOption(DlcloseModuleLibrary)]
  {
    if !IsGmsProcess(process) then [SetOption(DlcloseModuleLibrary)]
    else
      var unload := [SetOption(DlcloseModuleLibrary)];
      if EndsWith(process, UNSTABLE_SUFFIX) then
        var rest := (if hookProps then [] else unload) + [ConnectCompanion];
        assert rest[..|rest| - 1] == if hookProps then [] else unload;
        [SetOption(ForceDenylistUnmount)] + rest
      else [SetOption(ForceDenylistUnmount)] + unload
  }

  /** `preAppSpecialize` for a process named `process`; `apiLength` and
      `apiValue` are what `__system_property_get` gives for the first API
      level, and `reply` is what the two `recv` calls obtain from the
      companion. Only the target process changes the flag and the buffer. */
  function PreApp(s: Instance, process: string, apiLength: int, apiValue: string, reply: seq<byte>): (t: Instance)
    requires PreAppInputsDefined(process, apiLength, apiValue, reply)
    ensures t.events == s.events + PreAppEffects(process, t.hookProps)
    ensures !IsTargetProcess(process) ==> t.hookProps == s.hookProps && t.dexFile == s.dexFile
    ensures IsTargetProcess(process) ==>
      t.hookProps == FirstApiLevelGreater32(apiLength, apiValue) &&
      t.dexFile == Receive(s.dexFile, reply) && |t.dexFile| == DeclaredSize(reply)
  {
    var hookProps := if IsTargetProcess(process) then FirstApiLevelGreater32(apiLength, apiValue) else s.hookProps;
    var dexFile := if IsTargetProcess(process) then Receive(s.dexFile, reply) else s.dexFile;
    Instance(hookProps, dexFile, s.events + PreAppEffects(process, hookProps))
  }

  /** `postAppSpecialize`, where `resolved` says whether the hooking
      engine found `__system_property_read_callback`. */
  function PostApp(s: Instance, resolved: bool): (t: Instance)
    ensures s.events <= t.events && t.hookProps == s.hookProps
    // an empty buffer means there is nothing to do
    ensures s.dexFile == [] ==> t == s
    // every other path releases the buffer
    ensures s.dexFile != [] ==> t.dexFile == []
    ensures InstallHook in Added(s, t) <==> s.dexFile != [] && s.hookProps && resolved
    ensures LoadPayload(s.dexFile) in Added(s, t) <==> s.dexFile != [] && (!s.hookProps || resolved)
    // the payload is loaded at most once, after the hook when there is one
    ensures forall e | e in Added(s, t) :: e == InstallHook || e == LoadPayload(s.dexFile)
    ensures InstallHook in Added(s, t) ==> Added(s, t) == [InstallHook, LoadPayload(s.dexFile)]
    ensures InstallHook !in Added(s, t) ==> Added(s, t) == [] || Added(s, t) == [LoadPayload(s.dexFile)]
  {
    if s.dexFile == [] then s
    else if s.hookProps && !resolved then s.(dexFile := [])
    else
      var hook := if s.hookProps then [InstallHook] else [];
      var t := Instance(s.hookProps, [], s.events + hook + [LoadPayload(s.dexFile)]);
      assert Added(s, t) == hook + [LoadPayload(s.dexFile)];
      t
  }

  /** The payloads loaded by a run of effects, in order. */
  function Loads(events: seq<Event>): seq<seq<byte>> {
    if events == [] then []
    else
      var last := events[|events| - 1];
      Loads(events[..|events| - 1]) + if last.LoadPayload? then [last.dex] else []
  }

  lemma {:induction false} LoadsAppend(a: seq<Event>, b: seq<Event>)
    ensures Loads(a + b) == Loads(a) + Loads(b)
  {
    if b != [] {
      assert (a + b)[..|a + b| - 1] == a + b[..|b| - 1];
      LoadsAppend(a, b[..|b| - 1]);
    } else {
      assert a + b == a;
    }
  }

  lemma {:induction false} NoLoads(events: seq<Event>)
    requires forall e | e in events :: !e.LoadPayload?
    ensures Loads(events) == []
  {
    if events != [] {
      assert events[|events| - 1] in events;
      NoLoads(events[..|events| - 1]);
    }
  }

  /** `preAppSpecialize` neither loads anything nor installs the hook. */
  lemma PreAppLoadsNothing(s: Instance, process: string, apiLength: int, apiValue: string, reply: seq<byte>)
    requires PreAppInputsDefined(process, apiLength, apiValue, reply)
    ensures var t := PreApp(s, process, apiLength, apiValue, reply);
      Loads(t.events) == Loads(s.events) && (InstallHook in t.events <==> InstallHook in s.events)
  {
    var t := PreApp(s, process, apiLength, apiValue, reply);
    var added := PreAppEffects(process, t.hookProps);
    assert t.events == s.events + added;
    NoLoads(added);
    LoadsAppend(s.events, added);
  }

  /** `postAppSpecialize` loads the buffer exactly once when it is not
      empty and the hook, if wanted, was installed; otherwise nothing. */
  lemma PostAppLoads(s: Instance, resolved: bool)
    ensures Loads(PostApp(s, resolved).events)
         == Loads(s.events) + if s.dexFile != [] && (!s.hookProps || resolved) then [s.dexFile] else []
    ensures InstallHook in PostApp(s, resolved).events
        <==> InstallHook in s.events || (s.dexFile != [] && s.hookProps && resolved)
  {
    var t := PostApp(s, resolved);
    AddedAfter(s, t);
    LoadsAppend(s.events, Added(s, t));
    if s.dexFile != [] && s.hookProps && resolved {
      assert Loads([InstallHook, LoadPayload(s.dexFile)]) == Loads([InstallHook]) + [s.dexFile];
    }
  }

  /** A whole app specialization of a freshly loaded instance. Whatever the
      process, the inputs and the hooking engine do, the buffer is empty at
      the end. The payload is loaded once, with exactly the bytes the buffer
      received, when the process is the target, the declared size is
      non-zero (after a short read the zero-filled buffer is what gets loaded)
      and the hook was either not wanted or installed; otherwise nothing is
      loaded. The hook is installed exactly when it was wanted, the declared
      size is non-zero and the symbol was resolved. */
  lemma AppSpecialization(process: string, apiLength: int, apiValue: string,
                          reply: seq<byte>, resolved: bool)
    requires PreAppInputsDefined(process, apiLength, apiValue, reply)
    ensures var pre := PreApp(Instance(false, [], []), process, apiLength, apiValue, reply);
      var post := PostApp(pre, resolved);
      var received := IsTargetProcess(process) && Receive([], reply) != [];
      var hook := IsTargetProcess(process) && FirstApiLevelGreater32(apiLength, apiValue);
      post.dexFile == [] &&
      Loads(post.events) == (if received && (!hook || resolved) then [Receive([], reply)] else []) &&
      (InstallHook in post.events <==> received && hook && resolved)
  {
    var loaded := Instance(false, [], []);
    var pre := PreApp(loaded, process, apiLength, apiValue, reply);
    PreAppLoadsNothing(loaded, process, apiLength, apiValue, reply);
    PostAppLoads(pre, resolved);
  }

  /** `postAppSpecialize` requests no host option. */
  lemma PostAppKeepsOptions(s: Instance, resolved: bool, option: ZygiskOption)
    ensures SetOption(option) in PostApp(s, resolved).events <==> SetOption(option) in s.events
  {
    PostAppEvents(s, resolved);
  }

  /** A fresh instance that ends `preAppSpecialize` with a buffer to load and
      the props to hook has not asked to be unloaded. */
  lemma PreAppHookingStaysLoaded(process: string, apiLength: int, apiValue: string, reply: seq<byte>)
    requires PreAppInputsDefined(process, apiLength, apiValue, reply)
    ensures var pre := PreApp(Instance(false, [], []), process, apiLength, apiValue, reply);
      pre.dexFile != [] && pre.hookProps ==> SetOption(DlcloseModuleLibrary) !in pre.events
  {
    var pre := PreApp(Instance(false, [], []), process, apiLength, apiValue, reply);
    assert pre.events == [] + PreAppEffects(process, pre.hookProps);
  }

  /** A whole app specialization of a freshly loaded instance never both
      asks to be unloaded and installs the hook: the module stays loaded
      whenever its hook is in place. */
  lemma NoHookAfterUnload(process: string, apiLength: int, apiValue: string,
                          reply: seq<byte>, resolved: bool)
    requires PreAppInputsDefined(process, apiLength, apiValue, reply)
    ensures var post := PostApp(PreApp(Instance(false, [], []), process, apiLength, apiValue, reply), resolved);
      !(InstallHook in post.events && SetOption(DlcloseModuleLibrary) in post.events)
  {
    var pre := PreApp(Instance(false, [], []), process, apiLength, apiValue, reply);
    var post := PostApp(pre, resolved);
    assert InstallHook in post.events ==> pre.dexFile != [] && pre.hookProps by {
      PreAppLoadsNothing(Instance(false, [], []), process, apiLength, apiValue, reply);
      PostAppLoads(pre, resolved);
    }
    assert SetOption(DlcloseModuleLibrary) in post.events ==> SetOption(DlcloseModuleLibrary) in pre.events by {
      PostAppKeepsOptions(pre, resolved, DlcloseModuleLibrary);
    }
    PreAppHookingStaysLoaded(process, apiLength, apiValue, reply);
  }

  /** The calls `preAppSpecialize` makes in the target process: deny the
      mount, ask to be unloaded unless the props are to be hooked, and
      connect to the companion, in that order. */
  lemma TargetPreAppEffects(process: string, hookProps: bool)
    requires IsTargetProcess(process)
    ensures PreAppEffects(process, hookProps)
         == [SetOption(ForceDenylistUnmount)]
          + (if hookProps then [] else [SetOption(DlcloseModuleLibrary)])
          + [ConnectCompanion]
  {
  }

  /** The calls `postAppSpecialize` adds, as one formula: the hook when it is
      wanted and resolved, then the payload unless a wanted hook failed;
      both only for a non-empty buffer. */
  lemma PostAppEvents(s: Instance, resolved: bool)
    ensures PostApp(s, resolved).events
         == s.events
          + (if s.dexFile != [] && s.hookProps && resolved then [InstallHook] else [])
          + (if s.dexFile != [] && (!s.hookProps || resolved) then [LoadPayload(s.dexFile)] else [])
  {
    var t := PostApp(s, resolved);
    AddedAfter(s, t);
  }

  /** The end-to-end run in the target process: the companion sends a
      non-empty artifact, the device reports first API level `level`, and
      symbol resolution succeeds. The artifact is loaded exactly once, byte
      for byte, and the hook is installed exactly when `level` exceeds 32;
      the module stays loaded exactly when it does too. */
  lemma TargetEndToEnd(process: string, level: nat, artifact: seq<byte>)
    requires IsTargetProcess(process)
    requires level <= INT32_MAX && 0 < |artifact| <= INT32_MAX
    ensures WellFormedReply(Companion(artifact)) && InInt32Range(Atoi(Numeral(level)))
    ensures var pre := PreApp(Instance(false, [], []), process, |Numeral(level)|, Numeral(level), Companion(artifact));
      var post := PostApp(pre, true);
      pre.dexFile == artifact &&
      post.events == [SetOption(ForceDenylistUnmount)]
                   + (if level > 32 then [] else [SetOption(DlcloseModuleLibrary)])
                   + [ConnectCompanion]
                   + (if level > 32 then [InstallHook] else [])
                   + [LoadPayload(artifact)]
  {
    var reply := Companion(artifact);
    var hook := level > 32;
    assert WellFormedReply(reply) && Receive([], reply) == artifact
        && InInt32Range(Atoi(Numeral(level))) && FirstApiLevelGreater32(|Numeral(level)|, Numeral(level)) == hook by {
      FrameRoundTrip([], artifact);
      FirstApiLevelOfNumeral(level);
    }
    var pre := PreApp(Instance(false, [], []), process, |Numeral(level)|, Numeral(level), reply);
    assert pre.hookProps == hook && pre.dexFile == artifact;
    var unload := if hook then [] else [SetOption(DlcloseModuleLibrary)];
    var install := if hook then [InstallHook] else [];
    assert pre.events == [SetOption(ForceDenylistUnmount)] + unload + [ConnectCompanion] by {
      TargetPreAppEffects(process, hook);
      assert [] + PreAppEffects(process, hook) == PreAppEffects(process, hook);
    }
    var post := PostApp(pre, true);
    assert post.events == pre.events + install + [LoadPayload(artifact)] by {
      PostAppEvents(pre, true);
    }
  }

  /** A real instance: the fields the module keeps, plus its effect log. */
  class PlayIntegrityFix {
    var hookProps: bool
    var dexFile: seq<byte>
    var events: seq<Event>

    function State(): Instance
      reads this
    {
      Instance(hookProps, dexFile, events)
    }

    /** The host constructs the module with an empty buffer; `hookProps`
        holds whatever the uninitialised member holds until `onLoad`. */
    constructor (uninitialised: bool)
      ensures State() == Instance(uninitialised, [], [])
    {
      hookProps := uninitialised;
      dexFile := [];
      events := [];
    }

    /** `onLoad`: the flag starts false; nothing else changes. */
    method OnLoad()
      modifies this
      ensures State() == old(State()).(hookProps := false)
    {
      hookProps := false;
    }

    method PreAppSpecialize(process: string, apiLength: int, apiValue: string, reply: seq<byte>)
      requires PreAppInputsDefined(process, apiLength, apiValue, reply)
      modifies this
      ensures State() == PreApp(old(State()), process, apiLength, apiValue, reply)
    {
      if !StartsWith(process, GMS_PACKAGE) {
        events := events + [SetOption(DlcloseModuleLibrary)];
        assert events == old(events) + PreAppEffects(process, hookProps);
        return;
      }
      events := events + [SetOption(ForceDenylistUnmount)];
      if EndsWith(process, UNSTABLE_SUFFIX) {
        hookProps := FirstApiLevelGreater32(apiLength, apiValue);
        if !hookProps {
          events := events + [SetOption(DlcloseModuleLibrary)];
        }
        events := events + [ConnectCompanion];
        ReceivePayload(reply);
      } else {
        events := events + [SetOption(DlcloseModuleLibrary)];
      }
      assert events == old(events) + PreAppEffects(process, hookProps);
    }

    /** The receiving half of the target branch: `recv` of the size,
        `resize` of the buffer to it, `recv` of the data into the buffer. */
    method ReceivePayload(reply: seq<byte>)
      requires WellFormedReply(reply)
      modifies this
      ensures dexFile == Receive(old(dexFile), reply)
      ensures hookProps == old(hookProps) && events == old(events)
    {
      var size := Decode(reply[..4]);
      dexFile := Resize(dexFile, size);
      dexFile := Overwrite(dexFile, reply[4..4 + Delivered(reply)]);
    }

    /** `postAppSpecialize`; a successful install also redirects the
        process's property reads through `hook`. */
    method PostAppSpecialize(resolved: bool, hook: PropertyHook.Interceptor)
      modifies this, hook
      ensures State() == PostApp(old(State()), resolved)
      ensures hook.installed == (old(hook.installed) || (old(dexFile) != [] && old(hookProps) && resolved))
      ensures hook.savedCallback == old(hook.savedCallback) && hook.deliveries == old(hook.deliveries)
    {
      if dexFile == [] {
        return;
      }
      if hookProps {
        if !resolved {
          dexFile := [];
          return;
        }
        hook.Install();
        events := events + [InstallHook];
      }
      events := events + [LoadPayload(dexFile)];
      dexFile := [];
    }

    /** `preServerSpecialize`: always ask to be unloaded. */
    method PreServerSpecialize()
      modifies this
      ensures State() == old(State()).(events := old(events) + [SetOption(DlcloseModuleLibrary)])
    {
      events := events + [SetOption(DlcloseModuleLibrary)];
    }
  }
}
