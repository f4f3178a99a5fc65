# devops-web-test: a Dafny model of the pipeline core

devops-web-test runs a web project's automated tests as a pipeline of stages ("plugins"). The entry
point `start(dwtPath, config)` builds a test record, puts the lease-cache stage in front of the
configured stages, and then calls every stage's `init`, `beforeRun`, `run` (when its `shouldRun`
says so) and `afterRun` (not in development mode), one phase after another. Any error triggers a
cleanup pass of `afterRun` over every stage, and then the wrapped error is rethrown. The stages:

- start the project, a mock server and a Whistle proxy on ports taken from a lease cache;
- run the unit and end-to-end tests;
- archive the results with a union verdict.

The lease cache is a YAML file in the user's home directory. It records, per run id, the ports and
pids each stage holds, plus `lastUsed<name>` slots. Entries older than two hours are cleaned.

The model is a set of pure functions over immutable datatypes:

- **Lease cache.** A key list in enumeration order and a map of optional-field entries (`LeaseStore`).
- **Test record.** `TestRecord`, with its run id built from a Base64 tag (`Base64`, `Util`) and a
  `_.merge` of custom parameters (`Lodash`).
- **Port search.** `Port`, where a candidate outside 0..65535 makes `listen` throw a RangeError, and
  the fixed-or-allocate policy the three port-holding stages share (`PortPolicy`).
- **Engine.** The phase engine of test-controller.js (`Engine`). Hook outcomes come from an oracle,
  and the calls made are compared with a reference plan.
- **Stages.** Each stage's hooks return an `Act` (`Stage`): the effects asked of the outside world
  (commands, spawns, kills, file writes), the updated stage, record and lease cache, and how the
  hook settled. How the outside world answers is a `World` parameter. Commands, spawns, HTTP
  checks, the clock, port probes and `process.env.USE_XVFB` are all part of it.
- **Archive report.** `getTestReport`, `getDurationShow` and the union verdict (`ArchiveReport`).

## Model

| member | source | states |
|---|---|---|
| Js.BoolOr | src/plugins/E2ETest.js:20 | a boolean option is taken as given, any other value gives the default |
| Js.Describe | src/test-controller.js:95 | an Error with a message is described by its message, a thrown raw value by its text |
| Text.NatText | src/plugins/Archive.js:327 | a natural number prints as a non-empty digit string with no leading zero |
| Text.ParseNatText | src/plugins/Archive.js:327 | reading the printed digits back gives the number, so printing is injective |
| Text.IntText | src/plugins/E2ETest.js:67 | an integer prints as its magnitude's digits, with a minus sign when negative |
| Text.IndexFrom | src/plugins/Mockstar.js:161 | `indexOf` returns the first occurrence at or after the start, or -1 exactly when there is none |
| Text.IndexOfFindsOccurrence | src/plugins/Mockstar.js:161 | `indexOf(t) > -1` holds exactly when `t` occurs somewhere |
| Text.ReplaceChar | src/TestRecord.js:46 | a global single-character replace changes exactly the matching characters and keeps the length |
| Text.SpaceRun | src/plugins/UnitTest.js:52 | the leading `\s` run is maximal: all whitespace, followed by a non-space or the end |
| Base64.Value | src/util/index.js:15-19 | every alphabet character has a six-bit value |
| Base64.ValueChar | src/util/index.js:15-19 | the character of a six-bit value is in the alphabet and reads back as that value |
| Base64.Quad | src/util/index.js:15-19 | a group of three bytes encodes as four alphabet characters |
| Base64.Encode | src/util/index.js:15-19 | the encoding's length is a multiple of four and it is empty only for no bytes |
| Base64.EncodeLength | src/util/index.js:15-19 | the encoding has exactly 4·⌈n/3⌉ characters |
| Base64.EncodeShape | src/util/index.js:15-19 | the encoding is alphabet characters throughout, with `=` padding only in the last two places |
| Base64.QuadRoundTrip | src/util/index.js:15-19 | a full group decodes back to its three bytes |
| Base64.DecodeOneByte | src/util/index.js:15-19 | one trailing byte, padded with `==`, decodes back |
| Base64.DecodeTwoBytes | src/util/index.js:15-19 | two trailing bytes, padded with `=`, decode back |
| Base64.DecodeEncode | src/util/index.js:15-19 | decoding the encoding of any bytes gives the bytes back |
| Base64.Utf8Char | src/util/index.js:17 | a character takes one to four UTF-8 bytes, an ASCII one only its own code |
| Base64.Utf8 | src/util/index.js:17 | a string's UTF-8 is between one and four bytes per character, and is the codes themselves for ASCII |
| Base64.Utf8CharWellFormed | src/util/index.js:17 | a character's bytes form one well-formed UTF-8 sequence of RFC 3629: the lead byte announces the length, the rest are continuation bytes `0x80..0xBF`, the form is the shortest, and the payload bits rebuild the code point |
| Base64.Utf8DecodeEncode | src/util/index.js:17 | a strict UTF-8 decoder gives back the string from its `Buffer.from` bytes |
| Util.JoinOrThrow | src/plugins/Archive.js:295 | `path.join` throws a TypeError exactly when the directory is undefined |
| Util.GetAbsolutePath | src/util/index.js:6-13 | an absolute path is kept, a relative one is resolved under the base, no path gives the base; it fails exactly when an undefined base is needed |
| Util.AbsolutePathIsAbsolute | src/util/index.js:6-13 | with an absolute-valued resolve, every successful result is absolute |
| Util.AbsolutePathIdempotent | src/util/index.js:6-13 | making an absolute result absolute again, against any base, returns it unchanged |
| Util.GetBase64 | src/util/index.js:15-19 | the result is the Base64 of the UTF-8 bytes, cut to its last `length` characters for a positive length, whole for none or zero, with the first `-length` dropped for a negative one |
| Util.GetBase64Shape | src/util/index.js:15-19 | every character of the result is from the Base64 alphabet or `=` |
| Util.FromStrOrFunc | src/util/index.js:21-23 | a string option is returned as is, a function option is called on the arguments |
| Util.OrDefault | src/util/index.js:39-47 | a zero or absent numeric option gives the default |
| Util.RetryLimit | src/util/index.js:45 | the retry limit defaults to 10 |
| Util.RetryDelay | src/util/index.js:47 | the delay between attempts defaults to 1000 ms |
| Util.Attempts | src/util/index.js:48-72 | the attempt loop succeeds at the first successful GET and gives up after the budget of failures, none of which succeeded |
| Util.CheckAndWaitURLAvailable | src/util/index.js:35-73 | the check resolves at the first successful attempt (after one attempt when the first succeeds); a 'retry max' rejection comes only after failed attempts |
| Util.AllFailingMakesLimitPlusOneAttempts | src/util/index.js:52-72 | when every GET fails, exactly `retryLimit + 1` attempts are made before the rejection |
| Util.Settle | src/util/index.js:49-54 | the promise resolves exactly when the URL answered, and otherwise rejects with `Error('retry max')` |
| Port.SkipFrom | src/util/port.js:53-55 | the skip loop stops at the first port at or above the target that is not in the skip list |
| Port.SearchFrom | src/util/port.js:9-74 | a found port lies in 0..65535, is neither skipped nor refused, and every earlier candidate was skipped or refused. A rejection is either "no port" after every candidate up to 65535 was refused, or, in the first round only, the RangeError `listen` throws for a skipped-to candidate outside 0..65535. An uncaught RangeError comes only from a later round, for a candidate past 65535 |
| Port.FindAvailablePort | src/util/port.js:47-74 | the same outcomes from the start 9528 and the empty skip list by default; an uncaught RangeError follows a refused probe of the first candidate |
| Port.FindsFirstFreePort | src/util/port.js:47-74 | when some port from a start of at least 0 up to 65535 is free, the search resolves with the first free one |
| Port.OutOfRangeStartRejects | src/util/port.js:9-74 | a start outside 0..65535 that is not skipped rejects with the RangeError of `listen`, since the first round runs inside the promise executor |
| Port.SkipPastBoundRejects | src/util/port.js:53-57 | from 65535 with 65535 skipped, the skip loop hands 65536 to `listen` and the promise rejects with the RangeError |
| Port.SkipPastBoundEscapes | src/util/port.js:53-66 | from 65534, refused, with 65535 skipped, the bound test passes, the skip loop reaches 65536 in the next round, and the RangeError escapes uncaught from the listener |
| LeaseStore.Loaded | src/business/local-cache.js:127 | an unreadable cache is treated as an empty one |
| LeaseStore.Put | src/business/local-cache.js:150 | setting a key overwrites its entry and enumerates a new key last |
| LeaseStore.RemoveKey | src/business/local-cache.js:75 | removing a key from the enumeration keeps every other key, distinct |
| LeaseStore.Delete | src/business/local-cache.js:75 | `delete` removes exactly that key's entry |
| LeaseStore.TruthyPids | src/business/local-cache.js:57-63 | the collected pids are exactly the truthy pids of the lease list |
| LeaseStore.KillsForPids | src/business/local-cache.js:55-71 | the kill request names exactly the entry's truthy pids, and an empty batch is never sent |
| LeaseStore.CleanTestRecord | src/business/local-cache.js:50-79 | the entry is deleted whatever the kill does, and the pids killed are exactly its truthy ones |
| LeaseStore.Sweep | src/business/local-cache.js:101-105 | the expiry loop removes exactly the enumerated keys older than two hours, keeps the rest unchanged, and kills exactly the pids of what it removed |
| LeaseStore.Clean | src/business/local-cache.js:81-106 | on an unreadable cache nothing happens; otherwise the run's own entry and every expired entry go, the rest stay unchanged, and the kills are the removed entries' pids |
| LeaseStore.SweepKeepsFresh | src/business/local-cache.js:101-105 | a sweep over keys none of which is expired changes nothing and kills nothing |
| LeaseStore.CleanIdempotent | src/business/local-cache.js:81-106 | at the same time, a second clean removes nothing and kills nothing |
| LeaseStore.Ports | src/business/local-cache.js:119 | the mapped ports are the leases' ports in order |
| LeaseStore.PortsOf | src/business/local-cache.js:116-121 | the collected ports are exactly those held by some lease of some enumerated entry |
| LeaseStore.Uniq | src/business/local-cache.js:123 | `_.uniq` keeps each value once and loses none |
| LeaseStore.GetUsedPort | src/business/local-cache.js:108-124 | the used ports are those of every entry's leases, expired or not, each once; an unreadable cache gives none |
| LeaseStore.SaveUsedPort | src/business/local-cache.js:126-154 | the lease is appended to the run's list, or the entry is created, with `t` and `dwtPath` set; other keys are untouched, and an entry without a list throws |
| LeaseStore.SavedPortIsUsed | src/business/local-cache.js:108-154 | a saved port is among the used ports afterwards |
| LeaseStore.FirstNamed | src/business/local-cache.js:166 | `filter(...)[0]` is the first lease of that name, or none |
| LeaseStore.SaveUsedPid | src/business/local-cache.js:156-181 | nothing is written when the run or the name is missing; otherwise only the first lease of that name gets the pid and `t` is refreshed |
| LeaseStore.SlotKeyInjective | src/business/local-cache.js:185 | different names give different `lastUsed` slot keys |
| LeaseStore.SaveLastUsedPort | src/business/local-cache.js:183-195 | the slot is overwritten with the port and time, and nothing else changes |
| LeaseStore.GetLastUsedPort | src/business/local-cache.js:197-203 | a missing slot gives no port |
| LeaseStore.LastUsedRoundTrip | src/business/local-cache.js:183-203 | a slot reads back the port last saved in it, and other slots read as before |
| Lodash.Merge | src/TestRecord.js:80 | the result is an object exactly when the source is; objects merge their key sets; a non-object source replaces the destination |
| Lodash.MergeFields | src/TestRecord.js:80 | keys of either side are kept; an undefined source value keeps the old one; a plain source value replaces it; objects merge recursively |
| Lodash.MergeSelf | src/TestRecord.js:80 | merging a value onto itself changes nothing |
| Lodash.MergeIdempotent | src/TestRecord.js:80 | merging the same source twice equals merging it once |
| Lodash.MergeOntoEmpty | src/TestRecord.js:80 | `_.merge({}, b)` copies `b` |
| TestRecord.TextOr | src/TestRecord.js:11 | a given non-empty string is kept, otherwise the default is used |
| TestRecord.Param | src/TestRecord.js:52-61 | a missing SDK parameter reads as the empty string |
| TestRecord.SeqId | src/TestRecord.js:46 | in dev mode the run id is `dev` |
| TestRecord.SeqIdShape | src/TestRecord.js:46 | outside dev mode the run id is a Base64 tag of at most six characters with `=` replaced by `d`, followed by the start time |
| TestRecord.SeqIdHasNoEquals | src/TestRecord.js:46 | no run id contains `=` |
| TestRecord.SeqIdSeparatesRuns | src/TestRecord.js:46 | two runs from one base path started at different times get different run ids |
| TestRecord.New | src/TestRecord.js:6-64 | construction fails exactly when the base path is missing; otherwise it gives the defaults of the output and workspace paths, the flags and the run id |
| TestRecord.GetPlugin | src/TestRecord.js:71-73 | a stage is found exactly when one is registered under that name |
| TestRecord.AddTestCustomParams | src/TestRecord.js:79-81 | every earlier key stays, every new key is added, a plain value overwrites, and nothing else in the record changes |
| TestRecord.AddTestCustomParamsIdempotent | src/TestRecord.js:79-81 | exporting the same parameters twice is exporting them once |
| BasePlugin.EffectiveSkip | src/plugins/BasePlugin.js:13-15 | a falsy `shouldSkip` becomes a function answering false, and anything else is kept |
| BasePlugin.Create | src/plugins/BasePlugin.js:2-16 | a new stage keeps its name and is not initialised |
| BasePlugin.Init | src/plugins/BasePlugin.js:21-23 | `init` marks the stage initialised and changes nothing else |
| BasePlugin.ShouldRunFromOption | src/plugins/BasePlugin.js:50-54 | `shouldRun` negates the skip function's answer or the skip value's truthiness, and `init` does not change it |
| BasePlugin.ShouldRunByDefault | src/plugins/BasePlugin.js:13-15 | without a `shouldSkip` option a stage runs |
| Engine.Wrap | src/test-controller.js:95 | the rethrown error is an `Error` whose message is the fixed prefix followed by the description of the cause |
| Engine.RegistryLast | src/test-controller.js:49 | a name is registered exactly when some stage has it, and then to the last such stage |
| Engine.Gated | src/test-controller.js:53-78 | a phase other than `run` makes one call per stage |
| Engine.GatedPhase | src/test-controller.js:59-69 | every call of a phase is of that phase, on a listed stage its gate lets through |
| Engine.GatedMembers | src/test-controller.js:59-69 | a phase gives a turn to exactly the stages its gate lets through, in `run` those whose `shouldRun` does not answer false |
| Engine.GatedIncreasing | src/test-controller.js:53-78 | a phase visits the stages in list order |
| Engine.GatedAll | src/test-controller.js:53-57 | phases other than `run` call every stage, the k-th call on the k-th stage |
| Engine.FailingFacts | src/test-controller.js:22-82 | the first failing call rejects and every earlier one resolves; with none, all resolve |
| Engine.PerformCalls | src/test-controller.js:22-82 | the awaited calls made are those up to and including the first rejection |
| Engine.PerformError | src/test-controller.js:22-82 | the error raised is the first rejection's, and there is none exactly when nothing rejects |
| Engine.PerformAppend | src/test-controller.js:22-82 | calls in two batches are the calls in one; the second runs only if the first did not fail |
| Engine.PhaseLoop | src/test-controller.js:53-78 | one phase loop performs that phase's gated turns, stopping at the first rejection, where a `shouldRun` that throws settles its `run` turn with its error |
| Engine.InitLoop | src/test-controller.js:37-50 | the `init` loop performs the `init` calls, and each `init` sees exactly the earlier stages registered |
| Engine.Start | src/test-controller.js:18-97 | a failed setup rejects with the wrapped error and calls nothing; otherwise the lease-cache stage comes first in the stage list. The run itself is stated by StartFollowsPlan and ThrowingGateCleansUp |
| Engine.StartFollowsPlan | src/test-controller.js:22-92 | a run makes the planned turns up to the first rejection, or the first throw from `shouldRun`, then `afterRun` on every stage in cleanup mode up to the first rejection there |
| Engine.TurnsOutsideRun | src/test-controller.js:37-92 | outside the `run` loop every turn is the hook's own call |
| Engine.ThrowingGateCleansUp | src/test-controller.js:59-95 | a `shouldRun` that throws ends the `try` block at its stage's `run` turn, with no later turn: every stage gets its cleanup `afterRun` and `start` rejects with the wrapped error of `shouldRun` |
| Engine.TryBlockPerformsPlan | src/test-controller.js:22-82 | the `try` block performs the planned calls and reports the first rejection |
| Engine.InitSeesEarlierStages | src/test-controller.js:37-50 | stage k is initialised k-th and sees the stages before it registered, the lease-cache stage an empty registry |
| Engine.InitCalls | src/test-controller.js:37-50 | `init` calls go to the stages in order and reach at least the first |
| Engine.InitLeadsTrace | src/test-controller.js:37-50 | a run's calls begin with the `init` pass's |
| Engine.PlannedOrdered | src/test-controller.js:37-78 | the plan goes phase by phase, each phase in list order |
| Engine.PhaseBarrier | src/test-controller.js:22-92 | whatever fails, no call of a later phase precedes one of an earlier phase; on success each phase is in list order |
| Engine.PlannedMembers | src/test-controller.js:37-78 | a call is planned exactly when its stage exists, its gate lets it through, and it is not a dev-mode `afterRun` |
| Engine.SucceedsIffPlanResolves | src/test-controller.js:22-96 | a run resolves exactly when no planned `run` turn meets a `shouldRun` that throws and every planned call resolves, and then it made exactly the planned calls |
| Engine.SuccessCalls | src/test-controller.js:37-78 | on success every stage is initialised and prepared; `run` is called exactly on the stages whose `shouldRun` answers true; `afterRun` on every stage outside dev mode and never in it |
| Engine.AfterRunCounts | src/test-controller.js:87-92 | the cleanup pass calls each stage's `afterRun` at most once, and any prefix of it too |
| Engine.FailureCleansEveryStageOnce | src/test-controller.js:83-95 | an error in `init`, `beforeRun`, `shouldRun` or `run` leads to exactly one `afterRun` on every stage, initialised or not, and then to the wrapped error |
| Engine.AfterRunOnceEach | src/test-controller.js:73-78 | the `afterRun` pass calls each stage once |
| Engine.AfterRunFailureTrace | src/test-controller.js:73-92 | the calls of a run whose first failure is a success-path `afterRun` |
| Engine.AfterRunFailureRepeats | src/test-controller.js:73-92 | an `afterRun` that rejects on the success path re-enters the cleanup: it and every earlier stage get `afterRun` twice, the later ones once |
| Stage.CmdOr | src/plugins/Project.js:36-46 | a missing or empty command option gives the default, and anything else is kept |
| Stage.KeyText | src/plugins/Project.js:126 | an unset process key interpolates as `undefined` |
| Stage.Tagged | src/plugins/Project.js:126 | a tagged command is the command, ` --` and the key, so the key occurs in it |
| Stage.AfterPid | src/business/local-cache.js:156-181 | a pid write that wrote nothing leaves the cache as it was |
| Stage.Effects | src/plugins/E2ETest.js:125-164 | the steps' effects, one per step, in order |
| Stage.Chain | src/plugins/E2ETest.js:125-164 | awaited steps stop at the first failure that is not swallowed, with that error |
| Stage.ChainResolves | src/plugins/E2ETest.js:125-164 | a chain succeeds exactly when every step passes |
| Stage.ChainPrefixStops | src/plugins/E2ETest.js:125-164 | a chain whose first k steps pass stops at step k when that one fails, with its rejection |
| Stage.ChainAppend | src/plugins/E2ETest.js:125-164 | appended steps run only once the first part succeeds |
| Stage.ChainSwallowedTail | src/plugins/E2ETest.js:287-332 | with only the last steps swallowed, the chain succeeds exactly when every earlier effect resolves |
| Stage.PassesWhenSettled | src/plugins/E2ETest.js:125-164 | steps none of which is swallowed pass exactly when their effects resolve |
| PortPolicy.FindPort | src/plugins/Project.js:183-196 | a fixed port is kept; otherwise a port from 9528 to 65535 is searched, skipping the used ports, and leased under the stage's name. A failure reports the port the stage holds afterwards: none after a failed search, the found one after a failed lease write |
| PortPolicy.FixedPortKept | src/plugins/Project.js:184-187 | a nonzero port is kept with no search and no lease |
| PortPolicy.AllocatedPortIsFreshAndLeased | src/plugins/Project.js:189-196 | an allocated port is the first from 9528 up to 65535 that no lease holds and the probe accepts, leased under the stage's name, with every other entry alone |
| PortPolicy.AllocationFailures | src/plugins/Project.js:189-196 | allocation fails exactly when the search or the lease write fails, with that error: "no port", or the RangeError for a candidate past 65535, leaving no port; a failed lease write leaves the found port |
| PortPolicy.SuccessiveAllocationsDiffer | src/business/local-cache.js:108-154 | two stages allocating one after the other never get the same port |
| LocalCachePlugin.Create | src/plugins/LocalCache.js:6-8 | an empty name falls back to the default one |
| LocalCachePlugin.Clean | src/plugins/LocalCache.js:50-53 | `clean` is the lease-store cleanup for the record's run, its kills become effects, and it always resolves |
| LocalCachePlugin.BeforeRun | src/plugins/LocalCache.js:22-26 | `beforeRun` is `clean` |
| LocalCachePlugin.Run | src/plugins/LocalCache.js:32-34 | `run` does nothing |
| LocalCachePlugin.AfterRun | src/plugins/LocalCache.js:40-44 | `afterRun` is `clean` |
| LocalCachePlugin.CleanHookSpec | src/business/local-cache.js:81-106 | after either hook the run's entry and every expired entry are gone, exactly their pids are killed, and a second cleanup does nothing |
| LocalCachePlugin.AlwaysRuns | src/test-controller.js:34 | the lease-cache stage the engine adds always runs |
| ProjectPlugin.Create | src/plugins/Project.js:10-55 | each option, the root and both commands included, is kept when truthy and falls back to its default when falsy |
| ProjectPlugin.Defaults | src/plugins/Project.js:36-46 | without options the stage installs with `npm install`, builds with `npm start`, and needs no port |
| ProjectPlugin.ProcessKey | src/plugins/Project.js:68 | the process key is a fixed `project-e2etest-` prefix followed by the run id |
| ProjectPlugin.InitAsWritten | src/plugins/Project.js:61-69 | as written, `init` throws exactly when the root is relative |
| ProjectPlugin.Init | src/plugins/Project.js:61-69 | with the root resolved against `basePath`, `init` makes a relative root absolute and sets the process key |
| ProjectPlugin.DefaultRootBreaksInitAsWritten | src/plugins/Project.js:18 | with the default root, `init` as written throws a TypeError, while the corrected one resolves it |
| ProjectPlugin.InstallEffects | src/plugins/Project.js:119-129 | nothing is installed in dev mode, otherwise the tagged install command runs in the root |
| ProjectPlugin.CommandsCarryTheKey | src/plugins/Project.js:124-141 | every command the stage runs after `init` carries the run's process key, and two runs have different keys |
| ProjectPlugin.CleanAsWritten | src/plugins/Project.js:149-169 | as written, `clean` rejects exactly when a port is in use |
| ProjectPlugin.Clean | src/plugins/Project.js:149-169 | `clean` always resolves, and it kills by key and by port only when a port is in use |
| ProjectPlugin.CleanAgreesUntilThePort | src/plugins/Project.js:149-169 | the written and corrected `clean` agree except for the port kill where the written one throws |
| ProjectPlugin.FindPort | src/plugins/Project.js:176-199 | without `usePort` nothing happens; otherwise the shared port step runs, changing only the port, whether it succeeds or fails |
| ProjectPlugin.BeforeRun | src/plugins/Project.js:75-79 | `beforeRun` is the corrected `clean` of the Findings row for Project.js:162; as written it rejects once a port is set (ProjectPlugin.CleanAsWritten) |
| ProjectPlugin.AfterRun | src/plugins/Project.js:108-112 | `afterRun` is the corrected `clean` of the Findings row for Project.js:162; as written it rejects once a port is set (ProjectPlugin.PortedRunFailsCleanupAsWritten) |
| ProjectPlugin.Run | src/plugins/Project.js:85-102 | `run` installs, finds a port, then builds, ending at the first rejection |
| ProjectPlugin.FailedLeaseKeepsPort | src/plugins/Project.js:189-196 | a lease write that throws leaves the stage on the found port, so `run` rejects with that error, the corrected cleanup kills the port and the cleanup as written rejects |
| ProjectPlugin.RunOrder | src/plugins/Project.js:85-102 | the install comes first and a failed one leaves the cache alone; the build runs last, on the settled port |
| ProjectPlugin.PortedRunFailsCleanupAsWritten | src/plugins/Project.js:161-165 | once a stage with `usePort` has a port, the written `afterRun` rejects |
| MockstarPlugin.Create | src/plugins/Mockstar.js:10-32 | each option falls back to its default when falsy |
| MockstarPlugin.ProcessKey | src/plugins/Mockstar.js:45 | the process key is a fixed `mockstar-e2etest-` prefix followed by the run id |
| MockstarPlugin.Init | src/plugins/Mockstar.js:38-46 | `init` makes the root absolute against `basePath` and sets the process key |
| MockstarPlugin.InstallEffects | src/plugins/Mockstar.js:142-151 | nothing is installed in dev mode, otherwise the tagged install command runs in the root |
| MockstarPlugin.CleanFindsTheServer | src/plugins/Mockstar.js:97-160 | after `init`, the install command and the server spawn carry the run's process key, the one `clean` searches for; two runs never share a key |
| MockstarPlugin.ReadyIffAddressPrinted | src/plugins/Mockstar.js:160-162 | output counts as ready exactly when it contains `127.0.0.1:<port>` |
| MockstarPlugin.CleanAsWritten | src/plugins/Mockstar.js:96-111 | as written, `clean` rejects exactly when the stage has a port |
| MockstarPlugin.Clean | src/plugins/Mockstar.js:96-111 | `clean` always resolves, killing by key and, with a port, by port |
| MockstarPlugin.BeforeRun | src/plugins/Mockstar.js:52-56 | `beforeRun` is the corrected `clean` of the Findings row for Mockstar.js:104; as written it rejects for any nonzero port (MockstarPlugin.CleanAsWritten) |
| MockstarPlugin.AfterRun | src/plugins/Mockstar.js:85-89 | `afterRun` is the corrected `clean` of the Findings row for Mockstar.js:104; as written it rejects after every successful run (MockstarPlugin.CleanupFailsAsWritten) |
| MockstarPlugin.Start | src/plugins/Mockstar.js:158-168 | the server is spawned with the key and port, then its pid is saved; a failed spawn or a list-less entry rejects |
| MockstarPlugin.FindPort | src/plugins/Mockstar.js:118-135 | the shared port step runs without a gate and changes only the port, whether it succeeds or fails |
| MockstarPlugin.Run | src/plugins/Mockstar.js:62-79 | `run` installs, finds a port, then starts the server, ending at the first rejection |
| MockstarPlugin.FailedLeaseKeepsPort | src/plugins/Mockstar.js:125-132 | a lease write that throws leaves the stage on the found port, so `run` rejects with that error, the corrected cleanup kills the port and the cleanup as written rejects |
| MockstarPlugin.RunOrder | src/plugins/Mockstar.js:62-79 | the install comes first, then the spawn on a nonzero port, and a failed install leaves the cache alone |
| MockstarPlugin.PidLandsOnLastLease | src/business/local-cache.js:156-181 | when the only lease of a name is the last one, the pid is set on it |
| MockstarPlugin.ResolvedRun | src/plugins/Mockstar.js:62-79 | a resolved `run` found a port, spawned the server on it, and kept the cache the pid write left |
| MockstarPlugin.AllocationEndsWithOwnLease | src/plugins/Mockstar.js:126-132 | a port the step leased is in the run's last lease, the only one of that name |
| MockstarPlugin.PidOnAllocatedLease | src/plugins/Mockstar.js:165 | a pid saved after the allocation lands on that lease |
| MockstarPlugin.LeaseHoldsThePid | src/plugins/Mockstar.js:118-168 | a successful run that leased its port leaves that lease holding the spawned pid |
| MockstarPlugin.CleanupFailsAsWritten | src/plugins/Mockstar.js:103-107 | a successful run always ends with a port, so the written `afterRun` rejects, and with a fixed port so does `beforeRun` |
| WhistlePlugin.Create | src/plugins/Whistle.js:12-40 | the port defaults to 0, a rules function is kept and its absence gives the default rules, and the config file and process key stay unset until `init` |
| WhistlePlugin.ProcessKey | src/plugins/Whistle.js:53 | the process key is a fixed `whistle-e2etest-` prefix followed by the run id |
| WhistlePlugin.Init | src/plugins/Whistle.js:46-54 | the config file is put in the output directory, and the process key is set |
| WhistlePlugin.GenerateConfigFile | src/plugins/Whistle.js:107-132 | rules without a truthy `name` or `rules` are rejected with a string; otherwise the capture line comes first |
| WhistlePlugin.RulesKeepUserText | src/plugins/Whistle.js:116-123 | the written rules are the capture line, a blank line, and the user's rules unchanged |
| WhistlePlugin.DefaultRulesRejected | src/plugins/Whistle.js:27-31 | the default rules have no `name`, so they are always rejected |
| WhistlePlugin.Clean | src/plugins/Whistle.js:139-154 | `clean` always resolves, killing by key and, with a port, by port |
| WhistlePlugin.BeforeRun | src/plugins/Whistle.js:60-64 | `beforeRun` is `clean` |
| WhistlePlugin.AfterRun | src/plugins/Whistle.js:96-100 | `afterRun` is `clean` |
| WhistlePlugin.FindPort | src/plugins/Whistle.js:161-178 | the shared port step runs under the name `whistle`, changing only the port, whether it succeeds or fails |
| WhistlePlugin.FailedLeaseKeepsPort | src/plugins/Whistle.js:168-175 | a lease write that throws leaves the stage on the found port, so `run` rejects with that error before any effect and the cleanup kills the port |
| WhistlePlugin.Start | src/plugins/Whistle.js:185-205 | the proxy is spawned, its pid saved and its URL polled; an unanswered poll rejects with a string naming the URL |
| WhistlePlugin.StartRemembersPort | src/plugins/Whistle.js:195-204 | a started proxy's port is what the `lastUsedWhistle` slot reads; an unanswered one was polled eleven times and the slot is left alone |
| WhistlePlugin.StartAnswered | src/plugins/Whistle.js:195-201 | an answered poll saves the port in the slot |
| WhistlePlugin.StartUnanswered | src/plugins/Whistle.js:202-204 | an unanswered poll leaves the slot as it was and rejects |
| WhistlePlugin.DefaultCheck | src/plugins/Whistle.js:195 | the default readiness check polls at most eleven times |
| WhistlePlugin.PidWriteKeepsSlots | src/business/local-cache.js:156-181 | a pid write touches only the run's entry, never a `lastUsed` slot |
| WhistlePlugin.CleanFindsTheProxy | src/plugins/Whistle.js:140-214 | after `init`, `start` and `use` name the run's process key, the one `clean` searches for; the rules file is in the output directory; two runs never share a key |
| WhistlePlugin.Run | src/plugins/Whistle.js:70-90 | `run` finds a port, writes the config, starts the proxy and loads the rules, ending at the first rejection; a failed config write rejects before the spawn |
| WhistlePlugin.FailedWriteStopsRun | src/plugins/Whistle.js:77-132 | a config write that fails ends `run` with its error, with no spawn and the cache as `findPort` left it |
| WhistlePlugin.RunOrder | src/plugins/Whistle.js:70-90 | the config is written before the start, the rules are loaded last on the settled port, every effect resolved, and the port is remembered by then |
| WhistlePlugin.ResolvedRun | src/plugins/Whistle.js:70-90 | a resolved run found a port, wrote the config file successfully, started the proxy and loaded the rules, in that order |
| WhistlePlugin.RunPastStart | src/plugins/Whistle.js:80-86 | past a started proxy, the config write comes before the spawn and the rules load after it |
| WhistlePlugin.GetLastUsedWhistlePort | src/plugins/Whistle.js:217-243 | the remembered port is returned if it answers within one retry; otherwise its slot is reset to 0 |
| WhistlePlugin.LastUsedPortLookup | src/plugins/Whistle.js:217-243 | a port comes back exactly when one is remembered and one of two GETs succeeds; a forgotten port then gives nothing without polling |
| UnitTestPlugin.StripNpx | src/plugins/UnitTest.js:52 | a leading `npx` and its whitespace become one space; other commands are unchanged |
| UnitTestPlugin.StripNpxIdempotent | src/plugins/UnitTest.js:52 | stripping twice is stripping once |
| UnitTestPlugin.StripNpxKeepsTheRest | src/plugins/UnitTest.js:52 | only the prefix is lost |
| UnitTestPlugin.Create | src/plugins/UnitTest.js:10-75 | each truthy option is kept; a falsy root or command falls back to its default, the coverage one wrapping the test command |
| UnitTestPlugin.DefaultTestStripped | src/plugins/UnitTest.js:43-53 | stripping the default test command leaves a space and `cross-env BABEL_ENV=test mocha` |
| UnitTestPlugin.DefaultCoverageLiteral | src/plugins/UnitTest.js:51-53 | the default coverage command, spelled out, has two spaces after `--silent` |
| UnitTestPlugin.DefaultCommands | src/plugins/UnitTest.js:43-53 | without command options, the coverage run is the default test command under `nyc --silent` |
| UnitTestPlugin.Init | src/plugins/UnitTest.js:81-94 | `init` puts the report and coverage directories in the output directory and exports both as relative paths |
| UnitTestPlugin.Steps | src/plugins/UnitTest.js:108-201 | the steps are install (not in dev mode), the hook, the tests, the coverage run and the check, none swallowed |
| UnitTestPlugin.Run | src/plugins/UnitTest.js:108-135 | `shouldRunUnitTest` is exported only when every step succeeds |
| UnitTestPlugin.StepOrder | src/plugins/UnitTest.js:167-194 | the tests run right before a coverage run of the same command, after the install outside dev mode |
| UnitTestPlugin.RunResult | src/plugins/UnitTest.js:108-135 | a run succeeds exactly when every step does; a failed run stops at the failing step and exports nothing |
| UnitTestPlugin.BeforeRun | src/plugins/UnitTest.js:100-102 | `beforeRun` does nothing |
| UnitTestPlugin.AfterRun | src/plugins/UnitTest.js:141-143 | `afterRun` does nothing |
| E2ETestPlugin.DefaultTestCommand | src/plugins/E2ETest.js:62-68 | with a truthy proxy port the default runs `npx cross-env WHISTLE_PORT=<port> mocha`, otherwise `npx mocha` |
| E2ETestPlugin.Create | src/plugins/E2ETest.js:13-92 | each truthy command and a port function are kept, falsy ones fall back to their defaults (port 0 without a function), and only a boolean `enableTest` is taken |
| E2ETestPlugin.DefaultRunsPlainMocha | src/plugins/E2ETest.js:62-76 | without a test command or a port function, the tests run as `npx mocha` |
| E2ETestPlugin.DefaultPassesThePort | src/plugins/E2ETest.js:62-68 | a port function that gives a nonzero port makes the default command pass that port |
| E2ETestPlugin.Init | src/plugins/E2ETest.js:98-111 | `init` puts the report and coverage directories in the output directory and exports both as relative paths |
| E2ETestPlugin.Steps | src/plugins/E2ETest.js:125-164 | the steps are install, build, display start, hook, tests, display stop and the two archiving tasks, the archiving ones swallowed |
| E2ETestPlugin.Prologue | src/plugins/E2ETest.js:132-143 | before the tests come the install and build, the display, then the hook |
| E2ETestPlugin.Preparation | src/plugins/E2ETest.js:179-257 | the install (not in dev mode) and the build run in the app's root |
| E2ETestPlugin.Run | src/plugins/E2ETest.js:125-164 | a started display is kept in the record even if a later step fails, and `shouldRunE2ETest` is exported only on success |
| E2ETestPlugin.StepOrder | src/plugins/E2ETest.js:125-164 | the install comes first, the build before the tests, the display around them, and the archiving last |
| E2ETestPlugin.RunResult | src/plugins/E2ETest.js:125-164 | the run succeeds exactly when every non-archiving step does, whatever the archiving does; it then exports `shouldRunE2ETest` as the stage's answer on the record with the display recorded |
| E2ETestPlugin.RunExports | src/plugins/E2ETest.js:125-164 | a successful `run` sets `shouldRunE2ETest` to the stage's answer on the record, with the display recorded when it was started |
| E2ETestPlugin.RunFollowsChain | src/plugins/E2ETest.js:125-164 | `run` settles as its chain of steps, and a successful one exports exactly `shouldRunE2ETest` with the stage's answer |
| E2ETestPlugin.FailedTestLeavesDisplay | src/plugins/E2ETest.js:146-149 | a failing test run leaves the started display running |
| E2ETestPlugin.BeforeRun | src/plugins/E2ETest.js:117-119 | `beforeRun` does nothing |
| E2ETestPlugin.AfterRun | src/plugins/E2ETest.js:170-172 | `afterRun` does nothing |
| ArchiveReport.SecondsText | src/plugins/Archive.js:327 | `duration / 1000` prints as the whole seconds, then up to three decimals without trailing zeros |
| ArchiveReport.DurationShow | src/plugins/Archive.js:322-333 | under a minute the text is the seconds and `秒`; from a minute on, the minutes, `分`, the rest and `秒` |
| ArchiveReport.SecondsRoundTrip | src/plugins/Archive.js:327 | the printed seconds read back as the milliseconds |
| ArchiveReport.DurationRoundTrip | src/plugins/Archive.js:322-333 | the duration text reads back as the duration, so no two durations print alike |
| ArchiveReport.UnitDurationExample | test/scripts/business/archive.test.js:31-42 | 112 ms prints as `0.112秒` |
| ArchiveReport.E2EDurationExample | test/scripts/business/archive.test.js:107-118 | 597825 ms prints as `9分57.825秒` |
| ArchiveReport.GetTestReport | src/plugins/Archive.js:343-390 | a stage that is off gives a skip notice; one with no report a missing notice; otherwise the stats (`{}` when absent) and the duration, an absent one as zero |
| ArchiveReport.UnionVerdict | src/plugins/Archive.js:89-114 | the verdict is 1 when a side fails, else 2 when a side has no stats, else 0; the summary is empty exactly on success |
| ArchiveReport.MissingCountsFail | src/plugins/Archive.js:103-112 | stats without the failure or skip counts fail the verdict |
| ArchiveReport.TimedOutTestFails | test/scripts/business/archive.test.js:23-39 | the unit fixture, with no failures but one timed-out test, fails the verdict |
| ArchivePlugin.Create | src/plugins/Archive.js:12-26 | a `getPlugins` option that is not a function gives the default |
| ArchivePlugin.Init | src/plugins/Archive.js:32-58 | the stage works in the output directory, names its four products there, and exports the archive settings and zip path relative to the workspace |
| ArchivePlugin.BeforeRun | src/plugins/Archive.js:64-68 | `beforeRun` removes the output directory, and fails when that fails |
| ArchivePlugin.AfterRun | src/plugins/Archive.js:137-139 | `afterRun` does nothing |
| ArchivePlugin.TrimXvfb | src/plugins/Archive.js:278-288 | the saved xvfb keeps only display, timeout, arguments, and the process's arguments and pid |
| ArchivePlugin.SavedRecord | src/plugins/Archive.js:275-291 | only the record's xvfb field is trimmed |
| ArchivePlugin.SavedRecordIdempotent | src/plugins/Archive.js:275-291 | saving a saved record changes nothing |
| ArchivePlugin.Prepare | src/plugins/Archive.js:79-127 | a null stage entry rejects before any file is written; otherwise both results, each with its report's whole `stats` object, and the verdict are exported |
| ArchivePlugin.CompressAsWritten | src/plugins/Archive.js:293-306 | as written, the temporary path throws exactly when `dwtPath` is undefined |
| ArchivePlugin.Compress | src/plugins/Archive.js:293-306 | the output directory is zipped into the DWT directory, then moved to `output.zip` |
| ArchivePlugin.RunWith | src/plugins/Archive.js:74-131 | `run`, with the directory of the temporary zip as a parameter, never changes the stage or the lease cache |
| ArchivePlugin.RunAsWrittenNeverResolves | src/plugins/Archive.js:295 | as written, `run` rejects whatever the stages, reports and file system |
| ArchivePlugin.RunResolves | src/plugins/Archive.js:74-131 | the corrected `run` succeeds exactly when both test stages (and the proxy when end-to-end tests run) are given and every write, the zip and the move succeed |
| ArchivePlugin.ChainFinishes | src/plugins/Archive.js:124-130 | the writes, zip and move go through exactly when each of their effects resolves |
| ArchivePlugin.RunOutcome | src/plugins/Archive.js:74-131 | `run` settles as its preparation, or else as its chain |
| ArchivePlugin.RunSpec | src/plugins/Archive.js:74-131 | a successful `run` exports both results, each with its report's whole `stats` object, and the verdict, and ends by zipping and moving the zip into place |
| ArchivePlugin.StatsPassedThrough | src/plugins/Archive.js:368-369 | the exported `stats` is the report's object: every other key keeps its value, and each count is a key exactly when the report has it |
| ArchivePlugin.ReportedResultJson | src/plugins/Archive.js:366-390 | a reported result is exported as its `stats` object and its rendered duration |
| ArchivePlugin.ExportedVerdict | src/plugins/Archive.js:117-121 | the exported verdict is the union of the two reports, with both results beside it |
| ArchivePlugin.DefaultPluginsReject | src/plugins/Archive.js:19-25 | with the default `getPlugins`, `run` rejects at once with no effects and the record untouched |

## Left out

- src/util/run-cmd.js is not part of this model. Command runs and spawns are effects, and how they settle is a `World` parameter.
- business/process-handler.js (`kill`, `killPids`) is not part of this model. Kills are effects.
- The `buildCompleteCheck`, `testCompleteCheck` and `coverageCompleteCheck` callbacks and the spawn's readiness callback are not modelled as stopping a command. Only the Mockstar readiness test itself is modelled (`MockstarPlugin.ReadyIffAddressPrinted`).
- The `onBeforeTest` and `coverageCompleteCheck` hooks are steps whose outcome comes from the world. What they do to the record is not modelled.
- Pass percentages (`toFixed`), a reported result's summary text, and `getTotalCost`: these are floating point, and are left out.
- `getDurationShow` for durations of 2^53 ms and more, where JavaScript's floating-point division loses precision: not modelled.
- The entry page: the ejs rendering, the cheerio scraping of coverage HTML, and the exported coverage data are left out. Its writes are effects.
- The zip's contents and the JSON layout of the written files are left out. `path.basename(outputZipPath)` is the constant `output.zip`.
- The default Whistle rules' JSON dump of the record is abbreviated to its comment line. Only whether `name` and `rules` are truthy matters to the stage.
- The stop condition `testRecord.xvfb.stop` is taken as true for a display the stage started.
- `_cacheTestCmd` and `_cacheCoverageCmd`: the test command is computed once and passed to the coverage step instead.
- `enableTest` is stored by the E2E constructor but read nowhere in the source. The model keeps it and nothing uses it.
- `isInited` is set by every `init`, and no stage or engine behaviour depends on it.
- Logging, `Date.now()` timings and console output are left out. The clock is a `World` parameter.
- Reading and writing the YAML cache file is left out. The cache is passed in and returned, and an unreadable file is `None`.
- Ports are integers. Non-numeric ports from options are not modelled.
- `portIsOccupied` is the world's `probe` and `killPort` an effect. Their socket and `lsof` internals are left out.
- The engine's `config.plugins` entries are abstract stages: a name, and what `shouldRun` does (answer true, answer false, or throw). Their hooks' outcomes are an oracle.
- BasePlugin.ShouldRun: takes a `shouldSkip` function to return a value. A `shouldSkip` that throws is modelled only where the engine asks, as a stage whose `shouldRun` throws.
- UnitTestPlugin.Run: the second `shouldRun` call, at the end of `run`, is taken to answer. A `shouldSkip` that throws there is not modelled. For a function of the record alone it cannot throw there, since the engine already asked it about the same record.
- E2ETestPlugin.Run: the second `shouldRun` call, at the end of `run`, is taken to answer. A `shouldSkip` that throws there is not modelled.
- Util.FromStrOrFunc: option callbacks are total functions, because a user callback that throws is not modelled. This covers the command functions (`installCmd`, `buildCmd`, `testCmd`, `coverageCmd`), `getWhistleRules`, `getWhistlePort` and `getPlugins`. In the source such a throw rejects the step that called the callback (for example UnitTest.js:155, Whistle.js:108 or Archive.js:79). The model does not promise that rejection.
- ProjectPlugin.BeforeRun, ProjectPlugin.AfterRun, MockstarPlugin.BeforeRun, MockstarPlugin.AfterRun: these hooks use the corrected `clean` of the Findings table. The hooks as written reject once a port is set, which is stated only through `CleanAsWritten`, `PortedRunFailsCleanupAsWritten` and `CleanupFailsAsWritten`.
- Port.BadPort: the RangeError's message follows the wording of recent Node versions, and so do the TypeError messages of LeaseStore.SaveUsedPort, LeaseStore.SaveUsedPid and the Archive null entries. Other versions word them differently.
- PortPolicy.FindPort: a search whose RangeError escapes uncaught ends the Node process in the program. Process exit is not modelled, so the step rejects with that RangeError instead.
- LeaseStore.SaveUsedPort: sets the entry's `dwtPath` to the record's, which is never set. `safeDump` in util/yaml.js:37-42 throws on that undefined value without `skipInvalid`. The catch then passes an undefined document to `outputFileSync`, which writes the text `undefined` or throws, depending on the Node version. The model keeps the store in memory. So LeaseStore.SavedPortIsUsed and PortPolicy.SuccessiveAllocationsDiffer hold for the in-memory store only, not for the file reloaded before the next operation.
- LeaseStore.Put: lists a new key last. `saveCache` dumps with `sortKeys`, and every operation reloads the file first, so the program enumerates keys in sorted order. Only the order of kills and of used ports differs.
- Base64.Utf8: a JavaScript string can hold a lone surrogate, which `Buffer.from` encodes as U+FFFD. Strings here are sequences of Unicode scalar values, so this case does not arise.
- ArchivePlugin.Prepare, ArchivePlugin.RunSpec: a reported result carries the whole `stats` object and the duration, but not `passPercent` and `actualSuccessPercent`, which are floating point. The counts the verdict reads are taken as integers.
- ArchivePlugin.ExportedVerdict: requires that no earlier stage exported `e2eTest`, `unitTest` or `unionResult`, because `_.merge` would otherwise combine old and new objects.
- E2ETestPlugin.DefaultPassesThePort: states the command as the concatenation `"npx cross-env " + ("WHISTLE_PORT=" + port) + " mocha"` rather than as one literal.

## Findings

| source | as written | input that shows it | evidently intended | confidence | as-written member | corrected member |
|---|---|---|---|---|---|---|
| src/plugins/Project.js:65 | `init` resolves the root against `testRecord.dwtPath`, which the test record never sets | a Project stage with the default root `../../` | resolve against the record's `basePath`, the DWT directory | not executed | ProjectPlugin.DefaultRootBreaksInitAsWritten | ProjectPlugin.Init |
| src/plugins/Project.js:162 | `clean` calls `utilPort.kill`, but util/port.js exports `killPort`; the TypeError escapes the `.catch` | a Project stage with `usePort` and port 9528 | call `killPort` and swallow its failure | not executed | ProjectPlugin.PortedRunFailsCleanupAsWritten | ProjectPlugin.Clean |
| src/plugins/Mockstar.js:104 | `clean` calls `utilPort.kill`, which does not exist | any Mockstar stage after `findPort`, or with a fixed port | call `killPort` and swallow its failure | not executed | MockstarPlugin.CleanupFailsAsWritten | MockstarPlugin.Clean |
| src/plugins/Archive.js:295 | `compressDir` joins `testRecord.dwtPath`, which is undefined, so `path.join` throws | any archive run that reaches `compressDir` | put the temporary zip in the DWT directory, the record's `basePath` | not executed | ArchivePlugin.RunAsWrittenNeverResolves | ArchivePlugin.RunResolves |
