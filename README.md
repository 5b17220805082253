# pcap-sidecar: rotation tracker, mover and configuration lookups in Dafny

This project models two cores of the pcap-sidecar, in Dafny, and proves properties of them.

The first core is the PCAP file watcher of `pcap-fsnotify`. tcpdump writes rotating capture segments named
`part__<ordinal>_<iface>__<YYYYMMDD>T<HHMMSS>.<ext>` into a source directory. The watcher:

- parses each new name into a rotation key `ordinal/iface/ext`;
- counts the segments of each key and remembers the key's last one;
- moves the previous segment of a key into the destination directory as soon as the next one appears;
- on shutdown, cancels once (through the `isActive` compare-and-swap), then flushes every file left in the
  source directory.

The model has these parts:

- `SegmentNames`: the name pattern, implemented as the regular expression's lazy groups.
- `Rotation`: the tracker as functions over explicit tables.
- `Mover`: `movePcapToGcs`, as a method with a retry loop over a scripted file system.
- `Shutdown`: the single-fire flag.
- `Watcher`: a class `Sidecar` whose fields are the two tables and the flag. Its methods are proved against
  `Rotation` and `Shutdown`.

The second core is `pcap-config`:

- `ConfigKeys`: the key templates, modelled with a positional `Format`.
- `ConfigUtils`: the uint16 range filter, with a loop for `t_uint16s`.
- `ConfigContext`: `setCtxVar` and `LoadContext`, which write defaults into a koanf store (a class), and the
  internal typed getters.
- `PkgUtils` and `PkgContext`: the public getters of `pkg/config/utils.go` and `pkg/config/context.go`. The two
  files declare the same exported names, so each gets its own module.

A Go `context.Context` is a map from `ContextKey` to `Value`. A key remembers its Go type: a typed `CtxKey` and a
plain `string` with the same text are different keys.

Two behaviours of the code are easy to misread. The model follows the code in both:

- A capture stream is not identified by interface and ordinal alone. The rotation key also holds the extension
  (`pcap-fsnotify/main.go:301`), so segments of one stream written under two configured extensions (`pcap_ext` is a comma-separated list) rotate independently.
- The terminal flush runs with deletion off (`pcap-fsnotify/main.go:587-590`), so every flushed file stays in the
  source directory. `Watcher.Sidecar.FlushSrcDir` proves that no flush export removes its source. `flushSrcDir`
  has a single call site, so only a later flush, for example by a restarted sidecar over the same directory,
  submits those files again. Each such export then fails at the exclusive create of its target (`O_EXCL`,
  `pcap-fsnotify/main.go:186`), unless the earlier export created no target or the target was removed. In the model the
  create's outcome is the `createOk` field of each call's `MoveEnv`, so this is an assumption about the
  environment rather than a proved property.

## Model

| member | source | states |
|---|---|---|
| ConfigKeys.ListCtxVarTypeOf | pcap-config/internal/config/keys.go:99-103 | formatting the template `[]{0}` with `t` yields `"[]"` followed by `t` |
| ConfigKeys.MapCtxVarTypeOf | pcap-config/internal/config/keys.go:105-110 | formatting the template `map[{0}]{1}` yields `"map[" + k + "]" + v` |
| ConfigKeys.ToCtxKey | pcap-config/internal/config/keys.go:112-120 | formatting `pcap/cfg/{0}` with the key yields `"pcap/cfg/" + k` |
| ConfigKeys.ToKtxKey | pcap-config/internal/config/keys.go:122-124 | formatting `pcap/{0}` with the key yields `"pcap/" + k` |
| ConfigKeys.KeyFormsInjective | pcap-config/internal/config/keys.go:75-77 | each key form is injective; a key's context form never equals its own store form, and equals the store form of `b` exactly when `b` is `"cfg/"` followed by the key |
| ConfigKeys.ListTypeNames | pcap-config/internal/config/keys.go:93-97 | the list type constants are `"[]string"`, `"[]int"` and `"[]uint16"` |
| ConfigUtils.TUint16 | pcap-config/internal/config/utils.go:5-20 | the raw integer comes back unchanged exactly when it lies in 0..65535, and 0 otherwise |
| ConfigUtils.TUint16s | pcap-config/internal/config/utils.go:22-34 | the loop builds exactly the in-range raw values, in order |
| ConfigUtils.ValidUint16sAppend | pcap-config/internal/config/utils.go:28-32 | the filter distributes over concatenation, so it keeps the order of what it keeps |
| ConfigUtils.ValidUint16sSpec | pcap-config/internal/config/utils.go:27-33 | the output is never longer than the input and holds exactly the input's in-range values |
| ConfigErrors.PathDetail | pcap-config/internal/config/context.go:54-60 | the detail line of a path error is `"key => " + path` |
| ConfigContext.NewCtxKeyPath | pcap-config/internal/config/context.go:103-107 | formatting `{0}/{1}` with the prefix and the key yields `"pcap/" + k`, the same string as `ToKtxKey(k)` |
| ConfigContext.NewCtxKeyPathInjective | pcap-config/internal/config/context.go:103-107 | distinct keys have distinct store paths |
| ConfigContext.Convert | pcap-config/internal/config/context.go:130-143 | the type switch binds a value exactly for the five known types, always of the declared type: the string, the bool and the string list as read; a uint16 that equals the raw integer exactly when that lies in 0..65535; a uint16 list holding exactly the in-range raw values; any other type gives the invalid-value-type error for the path |
| ConfigContext.SetCtxVarOutcome | pcap-config/internal/config/context.go:109-146 | binds exactly when a value is at hand (stored, or an optional key's default) and the type is known, and the value has that type; a stored value takes precedence over the default (both directions of each error case are in `SetCtxVarClassification`) |
| ConfigContext.StoreAfterSet | pcap-config/internal/config/context.go:117-128 | no other path changes; a stored value is never overwritten; an absent path gains the default exactly when the key is optional and has one |
| ConfigContext.SetCtxVarClassification | pcap-config/internal/config/context.go:109-146 | each outcome, in both directions: unavailable ⇔ required and absent; illegal state ⇔ optional, absent and without default; invalid type ⇔ a value is at hand and the type is unknown; bound ⇔ a value is at hand and the type is one of the five, and then the value has that type |
| ConfigContext.SetCtxVar | pcap-config/internal/config/context.go:109-146 | the store gains the default exactly when the path is absent, the key optional and a default known; the context gains the typed binding on success and is returned unchanged with the error otherwise |
| ConfigContext.LoadContext | pcap-config/internal/config/context.go:148-160 | in any range order, every context variable ends up bound under its typed key to its value or its error; no other key changes; the store changes only at the variables' paths, by their defaults |
| ConfigContext.GetCtxVar | pcap-config/internal/config/context.go:189-199 | as written: the value is always nil and the error never is; an absent key gives "config not found", a stored error is wrapped as its cause, and any other value gives "illegal config state" |
| ConfigContext.GetCtxVarCorrected | pcap-config/internal/config/context.go:189-199 | corrected: a stored non-error value is returned with a nil error, in both directions; failures are "config not found" |
| ConfigContext.LoadedStringReadsBack | pcap-config/internal/config/context.go:148-199 | a string that `LoadContext` read from the store is read back by the corrected `getCtxVar` and `GetString` path, while the one as written fails on the same context |
| ConfigContext.BooleanOf | pcap-config/internal/config/context.go:201-212 | after `getCtxVar`: success exactly for a `bool`; its error is passed on; any other value is an invalid type |
| ConfigContext.GetBoolean | pcap-config/internal/config/context.go:201-212 | always `false` with exactly `getCtxVar`'s error |
| ConfigContext.GetBooleanOrDefault | pcap-config/internal/config/context.go:214-223 | always the default |
| ConfigContext.StringOf | pcap-config/internal/config/context.go:225-236 | success exactly for a `string`, with that string; errors passed on or invalid type |
| ConfigContext.GetString | pcap-config/internal/config/context.go:225-236 | always `""` with exactly `getCtxVar`'s error |
| ConfigContext.GetStringOrDefault | pcap-config/internal/config/context.go:238-247 | always the default |
| ConfigContext.StringsOf | pcap-config/internal/config/context.go:249-260 | success exactly for a `[]string`, with that list |
| ConfigContext.GetStrings | pcap-config/internal/config/context.go:249-260 | always the empty list with exactly `getCtxVar`'s error |
| ConfigContext.Uint16Of | pcap-config/internal/config/context.go:262-273 | success exactly for a `uint16`, with that number |
| ConfigContext.GetUint16 | pcap-config/internal/config/context.go:262-273 | always 0 with exactly `getCtxVar`'s error |
| ConfigContext.Uint16sOf | pcap-config/internal/config/context.go:275-286 | success exactly for a `[]uint16`, with that list |
| ConfigContext.GetUint16s | pcap-config/internal/config/context.go:275-286 | always the empty list with exactly `getCtxVar`'s error |
| PkgUtils.StringContextKey | pcap-config/pkg/config/utils.go:58-62 | the lookup key is the plain string `"pcap/cfg/" + k`, never a typed key |
| PkgUtils.BooleanFrom | pcap-config/pkg/config/utils.go:64-78 | `(v, nil)` exactly for a stored `bool`; a stored error gives "unavailable" with that error as cause; anything else, absence included, gives "invalid-type" |
| PkgUtils.StringFrom | pcap-config/pkg/config/utils.go:91-105 | the same three-way split for `string` |
| PkgUtils.StringsFrom | pcap-config/pkg/config/utils.go:118-132 | the same three-way split for `[]string` |
| PkgUtils.Uint16From | pcap-config/pkg/config/utils.go:134-148 | the same three-way split for `uint16` |
| PkgUtils.Uint16sFrom | pcap-config/pkg/config/utils.go:150-164 | the same three-way split for `[]uint16` |
| PkgUtils.GetBoolean | pcap-config/pkg/config/utils.go:64-78 | a `bool` under the plain-string key is returned; in a context holding only typed keys, always "invalid-type" |
| PkgUtils.GetBooleanOrDefault | pcap-config/pkg/config/utils.go:80-89 | the stored `bool` when there is one, the default otherwise |
| PkgUtils.GetString | pcap-config/pkg/config/utils.go:91-105 | a `string` under the plain-string key is returned; with only typed keys, always "invalid-type" |
| PkgUtils.GetStringOrDefault | pcap-config/pkg/config/utils.go:107-116 | the stored `string` when there is one, the default otherwise |
| PkgUtils.GetStrings | pcap-config/pkg/config/utils.go:118-132 | a `[]string` under the plain-string key is returned; with only typed keys, always "invalid-type" |
| PkgUtils.GetUint16 | pcap-config/pkg/config/utils.go:134-148 | a `uint16` under the plain-string key is returned; with only typed keys, always "invalid-type" |
| PkgUtils.GetUint16s | pcap-config/pkg/config/utils.go:150-164 | a `[]uint16` under the plain-string key is returned; with only typed keys, always "invalid-type" |
| PkgUtils.GetStringCorrected | pcap-config/pkg/config/utils.go:91-105 | corrected lookup under the typed key: the bound string is returned |
| PkgUtils.GetBooleanCorrected | pcap-config/pkg/config/utils.go:64-78 | corrected lookup under the typed key: the bound `bool` is returned |
| PkgUtils.LoadedStringIsMissedByStringKey | pcap-config/pkg/config/utils.go:58-69 | for a string variable in a context built by `LoadContext`, the getter as written reports "invalid-type" and the corrected one returns the stored text |
| PkgUtils.IsDebug | pcap-config/pkg/config/utils.go:166-170 | the debug flag under the plain-string key; with only typed keys, an "invalid-type" error |
| PkgUtils.IsDebugOrDefault | pcap-config/pkg/config/utils.go:172-177 | the `bool` stored under the plain-string key; with only typed keys, always the default |
| PkgUtils.VerbosityFrom | pcap-config/pkg/config/utils.go:183-187 | the value read on success; otherwise the default together with the same error |
| PkgUtils.GetVerbosityOrDefault | pcap-config/pkg/config/utils.go:179-188 | as written it returns the string stored under the debug key; on error, the default together with exactly the lookup's error; in a context with only typed keys, always the default with an "invalid-type" error |
| PkgUtils.GetVerbosityOrDefaultCorrected | pcap-config/pkg/config/utils.go:179-188 | corrected: the string bound to the verbosity key; on error, the default together with exactly that lookup's error |
| PkgUtils.VerbosityReadsDebugKey | pcap-config/pkg/config/utils.go:183 | after loading, the debug key holds a `bool`, so reading it as verbosity yields the default with "invalid-type" even under a typed key, while the verbosity key yields the configured text |
| PkgUtils.GetVerbosity | pcap-config/pkg/config/utils.go:190-194 | `"DEBUG"` whenever the lookup fails, and always with only typed keys |
| PkgUtils.GetBuild | pcap-config/pkg/config/utils.go:196-200 | the string stored under the plain-string key; with only typed keys, always the linker-set `Build` |
| PkgUtils.GetVersion | pcap-config/pkg/config/utils.go:202-206 | the string stored under the plain-string key; with only typed keys, always the linker-set `Version` |
| PkgUtils.GetFullVersion | pcap-config/pkg/config/utils.go:208-212 | `GetVersion + "/" + GetBuild`; with only typed keys, `Version + "/" + Build` |
| PkgUtils.GetFilter | pcap-config/pkg/config/utils.go:214-218 | the string stored under the plain-string key; with only typed keys, always `"DISABLED"` |
| PkgUtils.GetHosts | pcap-config/pkg/config/utils.go:220-224 | the stored host list; with only typed keys, the empty list and an error |
| PkgUtils.GetPorts | pcap-config/pkg/config/utils.go:226-230 | the stored port list; with only typed keys, the empty list and an error |
| PkgContext.IsDebug | pcap-config/pkg/config/context.go:24-28 | always `false` with a "config not found" or "illegal config state" error |
| PkgContext.IsDebugOrDefault | pcap-config/pkg/config/context.go:30-35 | always the given default |
| PkgContext.GetVerbosityOrDefault | pcap-config/pkg/config/context.go:37-46 | always the default, with the error of the debug key's lookup |
| PkgContext.GetVerbosity | pcap-config/pkg/config/context.go:48-52 | always `"DEBUG"` with an error |
| PkgContext.GetBuild | pcap-config/pkg/config/context.go:54-58 | always the linker-set `Build` |
| PkgContext.GetVersion | pcap-config/pkg/config/context.go:60-64 | always the linker-set `Version` |
| PkgContext.GetFullVersion | pcap-config/pkg/config/context.go:66-70 | `Version + "/" + Build` |
| PkgContext.GetFilter | pcap-config/pkg/config/context.go:72-76 | always `"DISABLED"` |
| PkgContext.GetHosts | pcap-config/pkg/config/context.go:78-82 | the empty list with exactly the internal lookup's error |
| PkgContext.GetPorts | pcap-config/pkg/config/context.go:84-88 | the empty list with exactly the internal lookup's error |
| SegmentNames.DigitRun | pcap-fsnotify/main.go:413 | the lazy `(\d+?)` before `_` spans the whole leading digit run |
| SegmentNames.ShortestIface | pcap-fsnotify/main.go:413 | the lazy `(.+?)` stops at the first point where the tail matches; no earlier point matches, and it never crosses a newline |
| SegmentNames.MatchAfterOrdinal | pcap-fsnotify/main.go:413 | a match splits the rest into interface, timestamp and a listed extension that re-compose to it |
| SegmentNames.MatchAfterPrefix | pcap-fsnotify/main.go:413 | a match yields well-formed groups that re-compose to the text after `part__` |
| SegmentNames.Parse | pcap-fsnotify/main.go:294-301 | a parsed name is exactly the name its groups compose, and every group has the pattern's shape |
| SegmentNames.ParseCompose | pcap-fsnotify/main.go:413 | round trip: every well-formed segment whose interface has no `_` parses back to itself |
| SegmentNames.RotationKey | pcap-fsnotify/main.go:301 | the key is the ordinal, a slash, the interface, a slash and the extension, with nothing else (`RotationKeyInjective` shows the groups can be read back) |
| SegmentNames.RotationKeyInjective | pcap-fsnotify/main.go:301 | two matched names share the key `ordinal/iface/ext` exactly when the three groups agree |
| SegmentNames.IsExitSentinel | pcap-fsnotify/main.go:414 | a name is the sentinel exactly when it is the source directory followed by `/TCPDUMPW_EXITED` and nothing else |
| SegmentNames.SentinelIsNotSegment | pcap-fsnotify/main.go:413-414 | the `TCPDUMPW_EXITED` sentinel never parses as a segment |
| Mover.TrimTrailingSlashes | pcap-fsnotify/main.go:164 | strips exactly the trailing slashes |
| Mover.AfterLastSlash | pcap-fsnotify/main.go:164 | the slash-free suffix of a path, preceded by a slash when shorter than the path |
| Mover.Base | pcap-fsnotify/main.go:164 | `filepath.Base` is never empty, is `"/"` or slash-free, and leaves a slash-free name unchanged |
| Mover.BaseOfChild | pcap-fsnotify/main.go:164 | the base name of `dir/name` is `name` |
| Mover.Join | pcap-fsnotify/main.go:164 | the joined path ends with the name, preceded by the directory and at most one inserted slash, and a non-empty directory is always separated from the name by a slash |
| Mover.TargetPath | pcap-fsnotify/main.go:164-169 | the target lies under the destination directory and ends in `.gz` when compressing (`TargetKeepsBaseName` shows it keeps the source's base name) |
| Mover.TargetKeepsBaseName | pcap-fsnotify/main.go:164-169 | the target keeps the source's base name, and compressing only appends `.gz` |
| Mover.TargetOfSegment | pcap-fsnotify/main.go:164-169 | a segment lands at `dstDir/part__…` under its own file name, with `.gz` when compressing |
| Mover.AttemptLimit | pcap-fsnotify/main.go:204-205 | never more copy attempts than the environment scripts, and at most `retries_max` when it is positive |
| Mover.RetryCopy | pcap-fsnotify/main.go:193-211 | the copy succeeds exactly when some attempt within the limit copies; then it stops at the first such attempt, after failures only, with its bytes; otherwise it made every attempt and reports 0 bytes |
| Mover.MovePcapToGcs | pcap-fsnotify/main.go:157-238 | the target path on every outcome; success ⇔ open, create and some attempt within the limit succeed; open or create failures make no attempt; exhausted retries make every attempt and report 0 bytes; on success, the first successful attempt's bytes; the source is removed ⇔ success, `delete` and a working remove, and a failed remove is no error |
| Rotation.Advance | pcap-fsnotify/main.go:320-342 | a step raises the key's counter by one, records the file as the key's last, and changes no other key |
| Rotation.Decide | pcap-fsnotify/main.go:333-342 | keep the first segment exactly when the key's counter was 0; unavailable exactly when it was not and the key has no non-empty last segment; otherwise export exactly the key's last segment |
| Rotation.ConsistentNeverUnavailable | pcap-fsnotify/main.go:333-342 | on consistent tables the "unavailable" branch is never taken, and the first segment of a key is kept exactly when the key has no last segment |
| Rotation.AdvanceKeepsConsistent | pcap-fsnotify/main.go:320-342 | stepping with a named file keeps the tables consistent |
| Rotation.DecideFromHistory | pcap-fsnotify/main.go:333-349 | a key with no history keeps its first segment; otherwise the newest earlier segment is exported |
| Rotation.RunTracksEachKey | pcap-fsnotify/main.go:320-367 | for each key, after any interleaving: the counter is the number of its segments, its last segment is the newest, and exactly the earlier segments were exported, in order (N segments give N−1 exports) |
| Rotation.RunConsistent | pcap-fsnotify/main.go:320-342 | from empty tables, named segments keep the tables consistent |
| Rotation.RunNeverUnavailable | pcap-fsnotify/main.go:338-342 | without interference, no step finds its predecessor unavailable |
| Rotation.TwoRotations | pcap-fsnotify/main.go:333-367 | two segments of one key: the first is kept, and the second exports the first and replaces it |
| Rotation.ExampleSegmentParses | pcap-fsnotify/main.go:412-414 | a concrete segment name parses back under the key `0/eth0/pcap` |
| Rotation.ExampleSegmentsShareKey | pcap-fsnotify/main.go:294-301 | two rotations of one stream share one key |
| Shutdown.Fire | pcap-fsnotify/main.go:539-543 | the guarded cancellation clears the flag and fires exactly when the flag was set |
| Shutdown.FirePreservesInv | pcap-fsnotify/main.go:538-570 | the guard at each of the timer, lock and initialization paths (and the sentinel path at line 467) keeps "cancelled at most once, exactly when fired, never while active" |
| Shutdown.FireAllSingleFire | pcap-fsnotify/main.go:538-570 | any sequence of triggers fires exactly once if the flag was set and some trigger runs, and never otherwise |
| Shutdown.StartWatching | pcap-fsnotify/main.go:445-450 | start-up leaves the flag set exactly when watching the directory succeeded |
| Shutdown.InitCheck | pcap-fsnotify/main.go:563-570 | on an initialization error the flag is cleared, and the check fires and cancels exactly when the flag was still set; without an error nothing changes |
| Shutdown.StartAsWritten | pcap-fsnotify/main.go:445-450 | as written: after a failure to watch the directory the flag is clear, and nothing has fired or cancelled; after success the flag is set |
| Shutdown.StartCorrected | pcap-fsnotify/main.go:445-450 | corrected: the flag is set exactly after success, and the context is cancelled, by exactly one firing, exactly after a failure |
| Shutdown.InitFailureNeverCancels | pcap-fsnotify/main.go:563-572 | as written, when watching the directory fails (lines 445-450 clear the flag), the initialization check and every later trigger fail their guard, so the context is never cancelled |
| Shutdown.StartCorrectedCancels | pcap-fsnotify/main.go:563-570 | corrected, the failure cancels at once and exactly once, and a good start cancels on the first trigger |
| Watcher.Visit | pcap-fsnotify/main.go:381-395 | corrected callback: never panics; submits exactly non-directories without error; agrees with the callback as written whenever `info` is present |
| Watcher.VisitAsWritten | pcap-fsnotify/main.go:381-388 | as written the callback panics exactly when `info` is nil, and submits exactly the error-free non-directories |
| Watcher.WalkAsWritten | pcap-fsnotify/main.go:381-395 | as written a walk that completes without panic saw a non-nil `info` on every callback and submitted at most one path per callback |
| Watcher.WalkAsWrittenPanics | pcap-fsnotify/main.go:381-388 | the walk as written equals the corrected one when every `lstat` succeeds, and panics as soon as one fails |
| Watcher.Sidecar.constructor | pcap-fsnotify/main.go:400-450 | empty tables, and the corrected start-up flag (see Findings; the as-written start is `Shutdown.StartAsWritten`) |
| Watcher.Sidecar.Trigger | pcap-fsnotify/main.go:539-543 | the guarded cancel fires exactly when the flag was set, and keeps the flag invariant and the tables |
| Watcher.Sidecar.ExportPrevious | pcap-fsnotify/main.go:349-367 | moves exactly the predecessor; afterwards the key's last segment is the new file whether or not the compare-and-swap succeeded; a leak is reported exactly under a concurrent write of another name; the result is true ⇔ the move succeeded |
| Watcher.Sidecar.TrackSegment | pcap-fsnotify/main.go:320-367 | the tables become `Rotation.Advance` of the old ones; a move happens exactly when `Rotation.Decide` says export, and moves the predecessor; otherwise false and nothing moved |
| Watcher.Sidecar.ExportPcapFile | pcap-fsnotify/main.go:281-368 | flush mode leaves the tables alone, refuses while the flag is set, and otherwise moves the file itself when it matches; a non-matching name changes nothing and returns false; streaming a match is `TrackSegment` under its rotation key |
| Watcher.Sidecar.HandleEvent | pcap-fsnotify/main.go:455-484 | once inactive, nothing happens; a created segment is exported with deletion on; the created sentinel cancels through the guard; any other event leaves tables and flag unchanged and moves nothing |
| Watcher.Sidecar.FlushOne | pcap-fsnotify/main.go:392 | a flush export, with the flag clear, moves the file uncompressed and kept exactly when it matches the pattern |
| Watcher.Sidecar.FlushSrcDir | pcap-fsnotify/main.go:370-397 | with the corrected walk callback `Visit`: the count is the number of submitted files modulo 2^32; the files moved are exactly the submitted ones that match, in walk order; none is removed; tables and flag unchanged |

## Left out

- Logging (`logEvent`, `logFsEvent`, zap) is output only and is not modelled.
- Memory relief is not modelled: `getCurrentMemoryUtilization`, `flushBuffers`, the ticker goroutine, and the `sync` flag of `flushSrcDir`. They read cgroup and `/proc` files and run `sync`.
- The fsnotify watcher, OS signals, `time.AfterFunc`, the lock file, goroutines and the WaitGroup are not modelled. Events, triggers and the lock outcome are inputs, run in one order.
- `fsnotify.NewBufferedWatcher` failing and `os.Exit` are not modelled: the process simply ends.
- Deleting the sentinel file (`os.Remove`) has no modelled effect.
- Byte streaming is not modelled: gzip, `io.Copy` and the retry delay. Each copy attempt is a scripted outcome in `MoveEnv`.
- Mover.MovePcapToGcs: `retries_max = 0` (retry until success or cancellation) is modelled as trying every scripted attempt. The end of the script stands for the cancellation of the context.
- `filepath.Walk` is not modelled: the directory is the sequence of callback calls it makes (`WalkVisit`).
- The validator passed to `flushSrcDir` is not a parameter: its only caller passes one that accepts every file.
- Mover.TargetPath: `filepath.Join` is modelled without lexical cleaning, which matters only for a destination with `.` or `..` elements or doubled slashes.
- SegmentNames.Parse: the source directory is a literal prefix. Regular-expression metacharacters in `src_dir` are not modelled.
- SegmentNames.Parse: extensions are compared literally. The `pcap_ext` items are pasted unescaped into the regular expression (`pcap-fsnotify/main.go:412-413`), so an item such as `pcap.gz` also matches `pcapXgz`. Regular-expression metacharacters in `pcap_ext` are not modelled.
- Watcher.Sidecar.FlushSrcDir: uses the corrected walk callback `Visit`, which skips a file whose `lstat` fails. As written the callback panics there (`pcap-fsnotify/main.go:381-388`) and the process ends. `Watcher.WalkAsWritten` and `Watcher.WalkAsWrittenPanics` model that path, and the method promises nothing about it.
- Watcher.Sidecar.constructor: uses the corrected start-up `Shutdown.StartCorrected`, which cancels at once when watching the directory fails. As written the flag is cleared and the context is never cancelled (`pcap-fsnotify/main.go:445-450`). `Shutdown.StartAsWritten` and `Shutdown.InitFailureNeverCancels` model that path.
- SegmentNames.Parse: the `len(rMatch) < 3` guard is not modelled, because a match always has four entries.
- Rotation.Advance: the per-key counters are unbounded, so the `uint64` wrap-around after 2^64 segments is not modelled.
- Watcher.Sidecar.TrackSegment: a concurrent write to `lastPcap` between the read and the compare-and-swap is the parameter `interference`. The live path itself is sequential.
- Watcher.Sidecar.FlushSrcDir: each flush export runs to completion in walk order, although the source starts one goroutine per file. Concurrent flushes touch no shared table.
- The koanf store is a map from path to a tagged raw value. Its accessors return the value when it already has the requested type and the zero value otherwise. Koanf's own type coercions are not modelled.
- `envVars` (the defaults table) is the parameter `defaults`. The linker-set `Build` and `Version` are parameters.
- Not modelled: `http_client.go`, `pkg/config/config.go`, the HTTP server, the CLI commands and `flags.go`. They are transport and CLI plumbing around the modelled functions.

## Findings

| source | as written | input that shows it | evidently intended | confidence | as-written member | corrected member |
|---|---|---|---|---|---|---|
| pcap-fsnotify/main.go:445-450 | a failure to watch the source directory stores `false` into `isActive`, so the initialization check's `CompareAndSwap(true, false)` at line 565 fails, as do the timer, lock and sentinel paths, and `main` waits at line 572 forever | `watcher.Add(src_dir)` returns an error | the initialization error cancels the context | not executed | Shutdown.InitFailureNeverCancels | Shutdown.StartCorrectedCancels |
| pcap-config/internal/config/context.go:189-199 | `getCtxVar` returns a non-nil error on every path, including for a properly bound value, so every internal getter fails and every `*OrDefault` returns its default | a context built by `LoadContext` from a store holding `pcap/build = "x"` | a bound value is returned with a nil error | not executed | ConfigContext.GetCtxVar | ConfigContext.GetCtxVarCorrected |
| pcap-config/pkg/config/utils.go:179-188 | `GetVerbosityOrDefault` reads `DebugKey`, which holds a `bool`, instead of `VerbosityKey` (pcap-config/pkg/config/context.go:41 does the same) | a context whose debug key is bound to `false` and whose verbosity key is bound to `"INFO"` | reads the verbosity key | not executed | PkgUtils.GetVerbosityOrDefault | PkgUtils.GetVerbosityOrDefaultCorrected |
| pcap-config/pkg/config/utils.go:58-69 | the getters look up the plain string `"pcap/cfg/<key>"`, but `LoadContext` binds the typed `CtxKey`, so in a context built by `LoadContext` every lookup misses and reports "invalid-type" | a context built by `LoadContext` from a store holding `pcap/build = "x"`, read with `GetBuild` | look up the typed key | not executed | PkgUtils.LoadedStringIsMissedByStringKey | PkgUtils.GetStringCorrected |
| pcap-fsnotify/main.go:381-388 | the walk callback calls `info.IsDir()` before checking `err`; `filepath.Walk` passes a nil `info` when `lstat` fails, and the call panics | the source directory is removed before the terminal flush | check `err` first | not executed | Watcher.WalkAsWrittenPanics | Watcher.Visit |
