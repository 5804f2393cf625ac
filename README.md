# PlayIntegrityFix zygisk module, modelled in Dafny

This project models the native part of PlayIntegrityFix, `zygisk/jni/zygisk.cpp`. That file is a
zygisk module, and the host loads one instance of it into every process forked from zygote.

The module handles one process specially: the Google Play services process whose name ends in
`unstable`. In that process it does four things:
- It asks the host to unmount the deny-listed mounts.
- It checks whether the device's first API level is above 32.
- It fetches a payload from its privileged companion over a socket.
- After specialization, it optionally hooks `__system_property_read_callback`, so that readers see
  `ro.product.first_api_level` as "32". It then class-loads the payload and calls its entry point,
  unless the buffer is empty or the hook was wanted and the symbol could not be resolved; in that
  case the buffer is dropped and nothing is loaded.

Every other process only asks to be unloaded. A GMS process that is not the target also asks for
the unmount.

The model is split into modules:

- `Int32Codec` (`int32_codec.dfy`): the four bytes on the wire for a C `int`, little-endian two's
  complement, with both round trips proved.
- `CompanionChannel` (`companion_channel.dfy`): the companion's frame (the size, then the bytes).
  It also models the receiver's steps: `recv` of the size, `vector::resize`, then `recv` of the
  data. The framing round trip is proved, and so is what a short read leaves in the buffer.
- `SystemProperty` (`system_property.dfy`): `atoi` as a pure parser and `isFirstApiLevelGreater32`.
- `PropertyHook` (`property_hook.dfy`): the substitution `handle_system_property` performs, as a
  function. The process-wide hook state (`o_hook` installed, the `o_callback` slot, and every call
  made to a caller's callback) is a class, with `my_hook`, `handle_system_property` and the original
  primitive as its methods.
- `Specialization` (`specialization.dfy`): the class `PlayIntegrityFix`. Its fields are `hookProps`
  and `dexFile`, plus an ordered log of the module's effects: `setOption` calls,
  `connectCompanion`, the hook install and the payload load. Each method is proved to move the
  instance as the function `PreApp` or `PostApp` describes. Each of those functions states the
  branch-by-branch promises, and lemmas compose them over a whole specialization.
- `Scenarios` (`scenarios.dfy`): whole runs through the class methods. One covers the target
  process on any API level, one continues it with a watcher's reads through the hook that run
  installed (or did not), and one covers an app outside GMS; the named runs instantiate them for `com.google.android.gms.unstable` at
  levels 33 and 30 and for `com.example.other`.

External inputs become parameters of the methods:
- the process name;
- the length and text `__system_property_get` returns;
- the bytes the two `recv` calls obtain;
- whether `DobbySymbolResolver` found the symbol.

## Model

| member | source | states |
|---|---|---|
| Int32Codec.Encode | zygisk/jni/zygisk.cpp:17 | the size header is exactly four bytes |
| Int32Codec.Decode | zygisk/jni/zygisk.cpp:85 | any four bytes read back as an `int` in the 32-bit range |
| Int32Codec.DecodeEncode | zygisk/jni/zygisk.cpp:17 | every 32-bit `int` written as four bytes reads back as itself |
| Int32Codec.EncodeDecode | zygisk/jni/zygisk.cpp:85 | every four-byte header is the encoding of the value it decodes to |
| CompanionChannel.Companion | zygisk/jni/zygisk.cpp:12-27 | the wire holds a 4-byte header whose value is the artifact's length, followed by exactly the artifact's bytes |
| CompanionChannel.DeclaredSize | zygisk/jni/zygisk.cpp:85 | the size read from a well-formed header is a non-negative 32-bit value |
| CompanionChannel.Delivered | zygisk/jni/zygisk.cpp:87 | the second `recv` copies at most the declared size and at most what arrived after the header, and stops only at one of the two |
| CompanionChannel.Resize | zygisk/jni/zygisk.cpp:86 | `resize(n)` yields length `n`, keeps each old element below `n` and zeroes each new one |
| CompanionChannel.Overwrite | zygisk/jni/zygisk.cpp:87 | `recv` into the buffer replaces its first bytes with the data and keeps its length and the rest |
| CompanionChannel.Receive | zygisk/jni/zygisk.cpp:84-87 | the buffer ends with the declared size; each byte is the received one where data arrived, else the old byte, else zero |
| CompanionChannel.FrameRoundTrip | zygisk/jni/zygisk.cpp:84-87 | a full frame written by the companion is well-formed, and receiving it leaves exactly the artifact in the buffer, whatever it held before |
| CompanionChannel.ShortReadZeroFills | zygisk/jni/zygisk.cpp:86-87 | when fewer bytes arrive than declared, the fresh buffer holds what arrived followed by zeros up to the declared size |
| SystemProperty.Atoi | zygisk/jni/zygisk.cpp:52 | `atoi`: a negative value needs a leading `-` after the white space, and no sign or digit there gives 0; what it reads is given by `AtoiNumeral` and `AtoiSign` |
| SystemProperty.SkipSpaces | zygisk/jni/zygisk.cpp:52 | `atoi` skips exactly the leading run of white space |
| SystemProperty.DigitRun | zygisk/jni/zygisk.cpp:52 | `atoi` reads the longest run of leading decimal digits |
| SystemProperty.FirstApiLevelGreater32 | zygisk/jni/zygisk.cpp:49-54 | false when the read length is below 1; otherwise true exactly when `atoi` of the value exceeds 32 |
| SystemProperty.AtoiNumeral | zygisk/jni/zygisk.cpp:52 | `atoi` of white space, a decimal numeral, then text not starting with a digit, is the numeral's value |
| SystemProperty.AtoiSign | zygisk/jni/zygisk.cpp:52 | a leading `-` negates the digits' value and a leading `+` keeps it |
| SystemProperty.AtoiNegativeNumeral | zygisk/jni/zygisk.cpp:52 | `atoi` of `-` followed by the numeral of `n` is `-n` |
| SystemProperty.FirstApiLevelOfNumeral | zygisk/jni/zygisk.cpp:49-54 | for a property holding the numeral of a level, `atoi` is defined and the predicate holds exactly when the level exceeds 32 |
| SystemProperty.AtoiTwoDigits | zygisk/jni/zygisk.cpp:52 | `atoi` of a two-digit numeral is its value |
| SystemProperty.AtoiOfLevels | zygisk/jni/zygisk.cpp:52 | `atoi` reads "33", "32" and "30" as 33, 32 and 30 |
| SystemProperty.FirstApiLevelExamples | zygisk/jni/zygisk.cpp:49-54 | "33" is eligible, "32" and "30" are not, and an unset property never is |
| PropertyHook.Substitute | zygisk/jni/zygisk.cpp:35-42 | the first API level's value becomes "32"; for any other name the arguments are unchanged; cookie, name and serial are always kept |
| PropertyHook.PlainRead | zygisk/jni/zygisk.cpp:31 | the unhooked primitive hands the caller's callback the property's own name, value and serial, with the caller's cookie |
| PropertyHook.HookedRead | zygisk/jni/zygisk.cpp:44-47 | through `my_hook`, the caller's own callback receives "32" for the first API level and exactly what an unhooked read gives for every other property |
| PropertyHook.Interceptor.constructor | zygisk/jni/zygisk.cpp:31-33 | at process start nothing is hooked, `o_callback` is null and no callback has been called |
| PropertyHook.Interceptor.Install | zygisk/jni/zygisk.cpp:111 | `DobbyHook` redirects the primitive and leaves the slot and the delivered calls alone |
| PropertyHook.Interceptor.ReadCallback | zygisk/jni/zygisk.cpp:44-47 | a read appends the hooked delivery once installed and the plain one before; once installed it also records the caller's callback in `o_callback` |
| PropertyHook.Interceptor.MyHook | zygisk/jni/zygisk.cpp:44-47 | `my_hook` stores the caller's callback, then makes exactly one delivery, the hooked read, to it |
| PropertyHook.Interceptor.OriginalReadCallback | zygisk/jni/zygisk.cpp:46 | the original primitive calls the callback it is given once, with the property's arguments |
| PropertyHook.Interceptor.HandleSystemPropertyCall | zygisk/jni/zygisk.cpp:35-42 | `handle_system_property` forwards the substituted arguments to the callback in `o_callback`, and changes nothing else |
| Specialization.StartsWith | zygisk/jni/zygisk.cpp:71 | `starts_with`: the prefix is no longer than the name and matches it character by character from the start |
| Specialization.EndsWith | zygisk/jni/zygisk.cpp:78 | `ends_with`: the suffix is no longer than the name and matches its last characters one by one |
| Specialization.IsGmsProcess | zygisk/jni/zygisk.cpp:71 | a GMS process is one whose name begins with `com.google.android.gms` |
| Specialization.IsTargetProcess | zygisk/jni/zygisk.cpp:71-78 | the target is a GMS process whose name also ends in `unstable` |
| Specialization.PreAppEffects | zygisk/jni/zygisk.cpp:71-91 | the unmount is requested exactly for GMS processes; unload exactly unless the process is the target with props to hook; the target connects once, as its last call, and no other process connects; a non-GMS process only asks for unload |
| Specialization.PreApp | zygisk/jni/zygisk.cpp:66-95 | only the target changes the flag, to the predicate's result, and the buffer, to what was received with the declared size; the log gains exactly the calls `PreAppEffects` describes |
| Specialization.TargetPreAppEffects | zygisk/jni/zygisk.cpp:76-83 | in the target: unmount, then unload only when props are not hooked, then one companion connection |
| Specialization.PostApp | zygisk/jni/zygisk.cpp:97-149 | an empty buffer changes nothing; otherwise the buffer is cleared; the hook is installed exactly when props are hooked and the symbol resolved; the payload is loaded with the buffer's bytes exactly when props are not hooked or the symbol resolved, at most once, after the hook |
| Specialization.PostAppEvents | zygisk/jni/zygisk.cpp:98-139 | the log gains the hook install, then the payload load, each exactly under its condition |
| Specialization.PreAppLoadsNothing | zygisk/jni/zygisk.cpp:66-95 | `preAppSpecialize` neither loads a payload nor installs the hook |
| Specialization.PostAppLoads | zygisk/jni/zygisk.cpp:97-149 | `postAppSpecialize` adds one load of the buffer exactly when it is non-empty and the hook is not wanted or resolved, and the hook exactly when it is wanted and resolved |
| Specialization.AppSpecialization | zygisk/jni/zygisk.cpp:66-149 | over a whole specialization, for any process and inputs: the buffer ends empty; the received buffer is loaded once exactly when the process is the target, the declared size is non-zero (after a short read the zero-filled buffer is what gets loaded) and the hook was not wanted or got installed; the hook is installed exactly when wanted, the declared size is non-zero and the symbol resolved |
| Specialization.TargetEndToEnd | zygisk/jni/zygisk.cpp:76-139 | in the target, with a full frame and a resolved symbol: the buffer holds the artifact, and the log is unmount, unload (only at level 32 or below), connect, hook (only above 32), then the artifact's load |
| Specialization.PostAppKeepsOptions | zygisk/jni/zygisk.cpp:97-149 | `postAppSpecialize` requests no host option: each option is in the log afterwards exactly when it was before |
| Specialization.PreAppHookingStaysLoaded | zygisk/jni/zygisk.cpp:78-83 | a fresh instance that ends `preAppSpecialize` with a buffer and the props to hook has not asked to be unloaded |
| Specialization.NoHookAfterUnload | zygisk/jni/zygisk.cpp:80-111 | for any process and inputs, one specialization of a fresh instance never both asks to be unloaded and installs the hook |
| Specialization.PlayIntegrityFix.constructor | zygisk/jni/zygisk.cpp:155-159 | the instance starts with an empty buffer and an empty log, and `hookProps` is whatever the uninitialised member holds |
| Specialization.PlayIntegrityFix.OnLoad | zygisk/jni/zygisk.cpp:60-64 | `hookProps` becomes false and nothing else changes |
| Specialization.PlayIntegrityFix.PreAppSpecialize | zygisk/jni/zygisk.cpp:66-95 | the new state is `PreApp` of the old state and the inputs |
| Specialization.PlayIntegrityFix.ReceivePayload | zygisk/jni/zygisk.cpp:84-87 | the buffer becomes what `Receive` describes; the flag and the log are untouched |
| Specialization.PlayIntegrityFix.PostAppSpecialize | zygisk/jni/zygisk.cpp:97-149 | the new state is `PostApp` of the old state; the process's hook becomes installed exactly when the buffer was non-empty, props were hooked and the symbol resolved |
| Specialization.PlayIntegrityFix.PreServerSpecialize | zygisk/jni/zygisk.cpp:151-153 | one unload request is appended and nothing else changes |
| Scenarios.ExampleProcessNames | zygisk/jni/zygisk.cpp:71-78 | `com.google.android.gms.unstable` is the target and `com.example.other` is not a GMS process |
| Scenarios.TargetProcessRun | zygisk/jni/zygisk.cpp:60-139 | driving the class through its methods in the target gives the end-to-end log, and the process's hook ends installed exactly above level 32, with its slot and deliveries untouched |
| Scenarios.TargetProcessReads | zygisk/jni/zygisk.cpp:35-139 | after the run, a watcher reading through the same process-wide hook is told "32" for the first API level exactly when the run installed the hook (level above 32) and the device's own value otherwise, and sees every other property untouched |
| Scenarios.UnstableProcessOnApi33 | zygisk/jni/zygisk.cpp:35-139 | in `com.google.android.gms.unstable` at level 33 the log is unmount, connect, hook, load of the artifact, the hook is installed, and a watcher then reads the first API level as "32" and any other property as it is |
| Scenarios.UnstableProcessOnApi30 | zygisk/jni/zygisk.cpp:35-139 | in `com.google.android.gms.unstable` at level 30 the log is unmount, unload, connect, load of the artifact, no hook is installed, and a watcher reads "30" and any other property as it is |
| Scenarios.OtherAppRun | zygisk/jni/zygisk.cpp:71-74 | `com.example.other` only asks to be unloaded and is never hooked |
| Scenarios.UnrelatedAppRun | zygisk/jni/zygisk.cpp:71-74 | an app outside GMS only asks to be unloaded and is never hooked, whatever the other inputs |

## Left out

- JNI class loading (zygisk/jni/zygisk.cpp:114-148) is one `LoadPayload(bytes)` event. That covers `FindClass`, `InMemoryDexClassLoader`, `loadClass`, the `init` call and the `DeleteLocalRef` calls. Its exceptions are not modelled.
- `DobbySymbolResolver` is the `resolved` input, and `DobbyHook` is `Interceptor.Install` plus an `InstallHook` event. Its return value is ignored in the source and assumed successful here.
- Sockets, files and the system property store are parameters holding the bytes or strings they produce:
  - `send`, `recv`, `close`: the reply bytes are an input, and `close` is not logged.
  - `ifstream` and `tellg`: the artifact is an input.
  - `__system_property_get`: its length and value are inputs.
  - `GetStringUTFChars`: the process name is an input.
- Companion: the missing-file case, where `tellg` returns -1, is not modelled. The artifact is always readable and at most `INT32_MAX` bytes. A partial `send` is not modelled.
- PlayIntegrityFix.PreAppSpecialize requires, in the target process only, a full 4-byte header with a non-negative size. A short header leaves `size` uninitialised, and a negative size makes `resize` throw. The source does neither check.
- FirstApiLevelGreater32 requires `atoi`'s value to fit an `int`, because overflow is undefined behaviour in C. `Atoi` itself is stated over unbounded integers.
- `atoi` is modelled for the "C" locale. `PROP_VALUE_MAX` truncation is left to the caller's string.
- The process-wide `o_callback` slot is modelled sequentially. Its race between threads reading properties at once is not captured.
- A second `DobbyHook` over an already hooked primitive is not modelled. Installing is idempotent here.
- The source does not enforce the host's phase order (`onLoad`, then pre and post specialization). The methods may be called in any order; the lemmas and scenarios compose them in the host's order.
- Logging (`LOGI`) has no semantic effect and is omitted.
- The `api` and `env` pointers are not modelled. The `serial` argument, a `uint32_t`, is a `nat`.
- The wire header uses the host's byte order, taken to be little-endian, as on every Android ABI.
- The receiver does not detect a short read. The buffer keeps the declared size, with zeros after the bytes that arrived, and that buffer is loaded. The model follows the code (`CompanionChannel.ShortReadZeroFills`); a negative size is excluded by precondition as above.
- `setOption` requests are entries of the ordered effect log rather than a separate set. Each "requested exactly when" property is membership in what a call adds to the log.
