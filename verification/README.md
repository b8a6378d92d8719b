# A verified model of the eieio node, its SDK and its conformance harness

This Dafny project models the stateful, looping parts of the eieio repository and proves what they
promise. Engines, module validation, codecs, the network and the hash are functions or
nondeterministic strategies the theorems quantify over. What is modelled keeps the source's branches
and their order; what is not is listed under "Left out".

- **Blocks and services.** `Text`, `Blocks`, `Registry`, `Publish` read references: which cache entry
  a reference names, which registry a miss is pulled from, and which references a publish makes.
  `Resolve` is the memo table over the read-through block cache, proved against resolving every
  instance alone. `Services` is the service table: what each file comes to at boot, given what its
  blocks resolve to, and the life of every graph the node spawns.
- **The conformance harness.** `Record` is the recording decorator and its ledger; `CoreFns` the
  xorshift64 entropy; `Capability` the scripted capability host; `Hex` the scenario's hex text;
  `Lifecycle` the guest calls of ABI section 5.1; `Walk` the walk over a scenario; `Check` the
  comparison with expectations; `Driven` that a step shows what its own
  run of the guest did; `Runs` what holds of every walk against every guest, and which walks panic;
  `Run` everything around the walk, from the document to the verdict.
- **The guest's side of the ABI.** `Status`, `Convention`, `Raw`, `Ctx` are the return conventions,
  the grow-and-retry loop, the stub host and the retained property buffer. `Utf8` and `Panic` are the
  panic message buffer over UTF-8 (sections 3 and 4 of RFC 3629).
- **Publishing.** `FakeRegistry` is the registry's server side as steps, `Oci` the push client against
  any registry, `Pushing` any number of clients interleaved a request at a time (the push workflow of
  the OCI Distribution Specification, "Pushing blobs").
- **Reading, merging, converting.** `Client`, `Sse` and `Mcp` are the server-sent-event reader, a
  printer for it (section 9.2.6 of the WHATWG HTML Living Standard) and the bounded reader; `Config`
  and `Nodes` the node table and its merge; `JsonBatch` the JSON-to-batch conversion, and `JsonPath` what its
  error paths can be told apart by.

A class stands where the source updates fields in place; each of its methods is proved against a
function of the old state, and the theorems are about that function. `Common` holds shared types.

## What turned out not to hold as written

Each of these is kept as the code has it, with the exact condition proved for all inputs.

- `run` is documented never to panic (`crates/conformance/src/run.rs:55-56`) and does. A step panics
  exactly when its script reaches a lone value that cuts a character, or when, in a running instance,
  it is a response or a delivery on a declared port whose text does (`Runs.StepPanicsExactly`); a walk
  exactly when a step it reaches does (`Runs.RunPanicsExactly`); a scenario, in its walk or in the
  state it begins with (`Run.RunLoaded`). One scenario does against every guest
  (`Runs.AScenarioPanics`); one written in ASCII never does (`Runs.AsciiScenariosNeverPanic`).
- Underneath is `unhex`, documented as strict: it slices text by byte offsets
  (`Hex.SlicingPanicsExactly`, `Hex.SlicingCanPanic`) and reads a plus sign as a leading zero
  (`Hex.PlusPassesForADigit`). The emission comparison is not affected.
- `crates/block-sdk/src/ctx.rs:356-357` says the buffer "never grows again". It does: `truncate`
  shrinks the length, and the length is what the next read offers (`Ctx.ReadTakesTheHead`,
  `Ctx.TheBufferGrowsAgain`). Answers longer than an `i32` are never delivered
  (`Ctx.ReadIsExactUpToI32`, `Ctx.OneAnswerIsTooLong`).
- `memory_pages` is one page short for a memory of the full four gigabytes, and exact for every
  smaller one (`Record.Recording.MemoryPages`).
- Filling `n` bytes and then `m` is one fill of `n + m` exactly when `n` is a multiple of 8 or `m` is 0
  (`CoreFns.FillsComposeOnWholeWords`).
- A reference published under a registry or namespace holding an `@` names nothing that was published
  (`Publish.PublishedIsWhatIsPulled`, `Publish.OneRegistryWithAnAt`).
- Cancelling an id succeeds for exactly the issued ids only until the 32-bit counter runs out
  (`Capability.CancelKnowsTheIdsGiven`, `Capability.TheFirstOfTooManyIsForgotten`).
- `export` then `import` restores the default exactly when it names a configured node
  (`Nodes.ExportThenImportRestores`, `Nodes.OneDefaultIsLost`).
- The event reader loses a newline that nothing precedes, and trims each line: an event survives being
  printed and read exactly when `Sse.Survives` says (`Sse.ReadUndoesPrint`,
  `Sse.OneEventDoesNotSurvive`).
- The path in a conversion error is text, and can spell a good leaf too (`JsonPath.OneConfusedDocument`).
  A key can make it do so exactly when it holds a dot or ends as an index is written
  (`JsonPath.ConfusableExactly`).
- A scenario can never observe a refusal for its port: ports are found by name before the host looks
  (`Runs.RefusalsTouchNothing`).
- A host that cannot take the capability functions skips the scenario, and an ABI disagreement found
  before that is not reported (`Run.RunLoaded`).

## Model

| member | source | states |
|---|---|---|
| Status.CodesRoundTrip | crates/abi/src/status.rs:74-108 | decoding a negative number and writing the code back are inverse both ways; `Unknown` never spells an assigned code |
| Status.AssignedCodesAreContiguous | crates/abi/src/status.rs:60-108 | the codes are -1, -2 and so on to -9 in their order, and there is no other but the unknown ones |
| Status.StatusRoundTrips | crates/abi/src/status.rs:156-166 | every status a guest can return is written back as the number it returned, and only 0 is success |
| Status.ConventionsAgreeOnNegatives | crates/abi/src/status.rs:213-265 | the three conventions agree that a call failed exactly on negative numbers, and on the code |
| Convention.GrowAndRetry | crates/block-sdk/src/convention.rs:75-91 | the loop ends against any host and computes the recursive specification, with the capacity each call offered |
| Convention.FailuresEndTheLoop | crates/block-sdk/src/convention.rs:75-91 | a failure ends the loop at the call that reports it: not-found an absence, any other code an error that names the call |
| Convention.AnyHostIsBounded | crates/block-sdk/src/convention.rs:75-91 | even against a host that changes its answer every call, each retry offers strictly more and at most 2^31-1, and a returned count never exceeds the buffer |
| Convention.FixedAnswerTakesTwoCalls | crates/block-sdk/src/convention.rs:75-91 | a host with one fixed answer is asked at most twice and the buffer then begins with that answer |
| Convention.Sized | crates/block-sdk/src/convention.rs:42-58 | a capability read is the loop over a fresh buffer, cut to what was written; not-found is an absence |
| Raw.CopyInto | crates/block-sdk/src/raw.rs:549-564 | a host write changes exactly the buffer's prefix |
| Raw.Recorder.Prop | crates/block-sdk/src/raw.rs:635-658 | the stub's property read: the answerer if one is set, else pops the queue, pushes the answer back when the buffer is short, reports its size, writes nothing else |
| Raw.PropReads | crates/block-sdk/src/raw.rs:635-658 | a property read is recorded, and answered by the answerer there is or from its queue, whose head goes exactly when it was delivered; nothing else moves |
| Raw.Recorder.StatePut | crates/block-sdk/src/raw.rs:721-737 | a write reaches the store unless a refusal is set, and is recorded either way |
| Raw.Recorder.StateDel | crates/block-sdk/src/raw.rs:739-750 | a removal of a key whether or not it was there |
| Raw.StateGetReads | crates/block-sdk/src/raw.rs:691-719 | a `state_get` through the loop returns the answer, at the cost of one call if it fits the starting capacity and two otherwise |
| Raw.StateGetPrecedence | crates/block-sdk/src/raw.rs:691-719 | refusal over queue over store over absence, and only the queue is consumed |
| Raw.I2cReads | crates/block-sdk/src/raw.rs:547-563 | an i2c read is recorded, and refused or answered from the queue; nothing else moves |
| Ctx.Ctx.PropCbor | crates/block-sdk/src/ctx.rs:355-377 | the retained-buffer read computes its specification from the buffer and host it was left |
| Ctx.ReadTakesTheHead | crates/block-sdk/src/ctx.rs:355-377 | one read returns the head of the queue and nothing of the old buffer, for one host call if it fits the length last left and two otherwise |
| Ctx.ReadIsExactUpToI32 | crates/block-sdk/src/ctx.rs:355-377 | the queued bytes are returned exactly when their length is at most 2^31-1 |
| Ctx.TheBufferGrowsAgain | crates/block-sdk/src/ctx.rs:355-377 | a long answer, a short one and the long one again cost five calls: the buffer grows twice |
| Ctx.OneAnswerIsTooLong | crates/block-sdk/src/ctx.rs:355-377 | an answer of 2^31 bytes is not delivered |
| Ctx.ReadOfNothing | crates/block-sdk/src/ctx.rs:368-371 | a drained queue is not-found, for one host call |
| Ctx.RefusalsPassThrough | crates/block-sdk/src/ctx.rs:355-377 | what the host refuses is an error that names the read and keeps the code, an absence included |
| Ctx.ReadsLeaveTheRest | crates/block-sdk/src/ctx.rs:355-377 | k reads leave exactly the rest of the queue and cost exactly the calls their answers cost |
| Ctx.ReadsReturnTheQueueInOrder | crates/block-sdk/src/ctx.rs:355-377 | k reads return the first k answers in order, then not-found, whatever lengths earlier answers left |
| Utf8.ValidExactlyWhenEncoded | crates/block-sdk/src/panic.rs:58-63 | the byte table `from_utf8` checks accepts exactly the encodings of scalar sequences |
| Utf8.BoundariesAreCharacterEnds | crates/block-sdk/src/panic.rs:69-72 | `is_char_boundary` on encoded text finds exactly the ends of whole characters |
| Panic.BackOff | crates/block-sdk/src/panic.rs:66-72 | the back-off stops at the longest run of whole characters that fits, giving up at most three bytes |
| Panic.Buffer.constructor | crates/block-sdk/src/panic.rs:51-56 | the buffer starts empty and valid |
| Panic.Buffer.AsStr | crates/block-sdk/src/panic.rs:58-63 | reading the message never falls back |
| Panic.Buffer.Append | crates/block-sdk/src/panic.rs:73-77 | the copy: the bytes before are kept, the prefix taken follows them, and nothing past it changes |
| Panic.Buffer.WriteStr | crates/block-sdk/src/panic.rs:65-79 | a write appends the longest character-aligned prefix that fits, keeps the buffer valid, and a truncating write leaves at most three bytes free |
| Panic.FitIsMaximal | crates/block-sdk/src/panic.rs:66-72 | one character more than what was kept would not fit |
| Panic.Report | crates/block-sdk/src/panic.rs:58-79 | any series of writes leaves the kept characters of each, and reads back as them |
| Panic.KeptFits | crates/block-sdk/src/panic.rs:38-56 | however much is written, what is kept fits the buffer |
| Panic.NothingIsLostWhenItFits | crates/block-sdk/src/panic.rs:65-79 | nothing is dropped exactly when everything fits |
| CoreFns.StepIsABijection | crates/conformance/src/core_fns.rs:60-64 | the xorshift64 turn is a bijection on 64-bit words |
| CoreFns.NeverZero | crates/conformance/src/core_fns.rs:46-56 | no nonzero seed ever reaches zero |
| CoreFns.RepeatReturnsToStart | crates/conformance/src/core_fns.rs:58-67 | an orbit that repeats returns to its start |
| CoreFns.EverySeedIsPeriodic | crates/conformance/src/core_fns.rs:58-67 | every nonzero seed has a period of at most 2^64-1 |
| CoreFns.FillChunks | crates/conformance/src/core_fns.rs:58-67 | the loop over chunks of eight writes one word a chunk, cut at the end, for any generator |
| CoreFns.BytesWeighUp | crates/conformance/src/core_fns.rs:58-67 | the bytes of a word are little-endian: they weigh up to it |
| CoreFns.DeterministicEntropy.constructor | crates/conformance/src/core_fns.rs:46-54 | a zero seed is replaced, so no generator starts at zero |
| CoreFns.DeterministicEntropy.Fill | crates/conformance/src/core_fns.rs:58-67 | a fill writes the specified bytes and leaves the specified state |
| CoreFns.FillReadsTheOrbit | crates/conformance/src/core_fns.rs:58-67 | byte i of a fill is byte i mod 8, little-endian, of the word after i/8+1 turns |
| CoreFns.FillAdvances | crates/conformance/src/core_fns.rs:58-67 | a fill of n bytes advances the state by n/8 turns, rounded up |
| CoreFns.FillsComposeOnWholeWords | crates/conformance/src/core_fns.rs:58-67 | fills compose, for every seed, exactly when the first ends on a whole word or the second is empty |
| Record.Recording.MemoryPages | crates/conformance/src/record.rs:144-158 | 32 one-byte reads at 32-bit offsets find S/65536 pages for every memory below four gigabytes, and one page less at four |
| Record.Recording.Call | crates/conformance/src/record.rs:172-195 | a call is the engine's own; frees are faulted, answered allocations classified and listed, known host calls logged |
| Record.Recording.Write | crates/conformance/src/record.rs:205-216 | a write is the engine's own, and is faulted exactly when no one accepted allocation contains it |
| Record.Recording.Drive | crates/conformance/src/record.rs:171-242 | over any run of operations the decorator answers as the bare engine does, leaves it in the same state, and its ledger is the run's |
| Record.OneFaultPerGuiltyEvent | crates/conformance/src/record.rs:161-216 | one fault for each host-side free and each stray write, and none for anything else |
| Record.FaultsAreSettled | crates/conformance/src/record.rs:161-216 | later events never change what an earlier one was faulted for |
| Record.KnownIsExact | crates/conformance/src/record.rs:218-241 | what is logged is exactly the calls of known functions, in order, none twice |
| Text.LastComponentIs | crates/daemon/src/blocks.rs:202-256 | a prefix and a slash never change a path's last component |
| Text.LastComponentExactly | crates/daemon/src/blocks.rs:223-231 | a name is exactly what follows the last slash, or all of the path |
| Text.HexDigitsAre | crates/daemon/src/blocks.rs:244-246 | the hex digits are the sixteen, in either case |
| Text.LettersFold | crates/daemon/src/blocks.rs:253-255 | case folding moves the 26 letters, each to its own, and nothing else |
| Blocks.SplitTagIsExact | crates/daemon/src/blocks.rs:267-278 | a tag is exactly a nonempty tail after a colon that holds no colon and no slash; the split rebuilds the reference |
| Blocks.ParsesExactly | crates/daemon/src/blocks.rs:202-256 | the grammar of references: exactly which texts name an entry, by tag or by digest, and which entry |
| Blocks.RefusedExactly | crates/daemon/src/blocks.rs:202-256 | untagged exactly when no tag can be split off, an unsupported digest exactly when another algorithm is named, and malformed otherwise |
| Blocks.NamespaceNamesNoEntry | crates/daemon/src/blocks.rs:202-231 | an `@`-free registry and namespace in front change the entry named exactly when nothing follows them |
| Blocks.AcceptedIsTwoComponents | crates/daemon/src/blocks.rs:202-256 | every accepted reference is two ordinary path components |
| Blocks.EntryPathIsInjective | crates/daemon/src/blocks.rs:171-180 | two entries never share a path under one root |
| Blocks.PathsAreEntries | crates/daemon/src/blocks.rs:162-180 | two references share a cache path exactly when they name one entry |
| Registry.LocatesExactly | crates/daemon/src/registry.rs:341-388 | exactly which references can be pulled: the host one with a dot, a colon or `localhost`, what repository and by what tag or digest; every other one names no registry |
| Registry.PullAndCacheAgree | crates/daemon/src/registry.rs:351-388 | a pull never fetches one artifact while the cache files it under another's name and version |
| Publish.TagsAreComponents | crates/cargo-eio/src/publish.rs:223-241 | every version `ref_tag` passes is an ordinary component without a colon or an `@` |
| Publish.TargetsExactly | crates/cargo-eio/src/publish.rs:145-172 | exactly which registry arguments and versions a publish accepts and where it then goes; no namespace, not a host and an illegal tag are each refused exactly when |
| Publish.PublishedIsWhatIsPulled | crates/cargo-eio/src/publish.rs:145-172 | what was published parses in the daemon to that name and tag, and is located where it was pushed, exactly when the registry argument holds no `@` |
| Publish.NothingPulledPastAnAt | crates/cargo-eio/src/publish.rs:145-172 | an `@` before the name leaves a reference that parses to nothing |
| Publish.OneRegistryWithAnAt | crates/cargo-eio/src/publish.rs:145-172 | `ghcr.io/a@b` is accepted, and the reference published under it parses to nothing |
| Resolve.CacheLocatorIsCoherent | crates/daemon/src/blocks.rs:162-180 | a cache path determines all a resolution needs to know of a reference |
| Resolve.SystemBlocksAreNamed | crates/daemon/src/boot.rs:702-720 | a reference leads to its cache path, and is a system block exactly when its name is one of the two |
| Resolve.Node.Fetch | crates/daemon/src/boot.rs:646-685 | the cache first; a miss pulls this reference once, and stores only what it pulled |
| Resolve.FetchedExactly | crates/daemon/src/boot.rs:646-685 | the bytes answered are the cache's, or the registry's once the cache took them, and only those are written; unregistered, refused, unstorable and unreadable are each their own failure, exactly when, and write nothing |
| Resolve.ResolvedExactly | crates/daemon/src/boot.rs:697-746 | an instance resolves exactly when its module is there, validates and is capable, and then to those very bytes; invalid and incapable are each their own failure |
| Resolve.NothingToFetch | crates/daemon/src/boot.rs:702-720 | a reference that names no entry, and a system block, ask nothing of cache or registry |
| Resolve.NewFilesAreWhatWasPulled | crates/daemon/src/boot.rs:646-746 | every file new in the cache holds exactly what the registry answered for an instance whose reference leads there |
| Resolve.Node.Place | crates/daemon/src/boot.rs:697-746 | one instance placed: an index already there, or one entry more, settled for every reference to its path |
| Resolve.Node.Resolve | crates/daemon/src/boot.rs:687-746 | the memoised resolution gives each instance what resolving it alone would, fails where that would, leaves the same cache and registry, asks about each path once, pulls only misses and overwrites nothing |
| Resolve.FirstFailureStands | crates/daemon/src/boot.rs:697-746 | the first failure in id order is the resolution's, whatever follows |
| Resolve.ResolvingExtends | crates/daemon/src/blocks.rs:144-160 | resolving only ever adds to the cache |
| Resolve.WarmResolvesAlone | crates/daemon/src/boot.rs:646-746 | with its paths cached, a resolution is the same whatever else is cached and whatever the registry says, and pulls nothing |
| Services.BootExtends | crates/daemon/src/boot.rs:326-351 | a boot only ever adds to the cache |
| Services.WarmComesAlone | crates/daemon/src/boot.rs:446-541 | with its blocks cached, a service comes to the same state whatever else is cached and whatever the registry says, and moves nothing |
| Services.SiblingsDoNotMatter | crates/daemon/src/boot.rs:326-351 | with its own blocks cached, a service comes out of boot running, stopped or failed for the same reason as it would alone |
| Services.StartsAgree | crates/daemon/src/boot.rs:543-552 | with the flag the two starts agree; without it a service is stopped exactly where asking for it would have started it or tried to |
| Services.ComesAsWarranted | crates/daemon/src/boot.rs:446-597 | running exactly when readable, parsed, named, resolved, wired, asked for and spawned; stopped and each failure exactly when |
| Services.Node.Set | crates/daemon/src/boot.rs:269-281 | replaces a name's service, retiring the graph there; every graph stays accounted for |
| Services.Node.Remove | crates/daemon/src/boot.rs:287-292 | forgets a name, retiring its graph once |
| Services.Node.Validate | crates/daemon/src/boot.rs:516-541 | validation runs the memoised resolution and judges the definition by what each block resolves to alone |
| Services.Node.Apply | crates/daemon/src/boot.rs:543-597 | runs exactly what is asked for and comes up, with the failure kept; only a running service takes a graph, the next one |
| Services.Node.Load | crates/daemon/src/boot.rs:446-481 | running, stopped and each failure exactly when the file and what its blocks resolve to warrant it; one that is not asked for spawns nothing |
| Services.Node.ReloadOne | crates/daemon/src/boot.rs:415-430 | the name is in the state its file and its blocks warrant, no other name changes, the new graph is spawned and then the old one stopped and joined |
| Services.Node.Perform | crates/daemon/src/api/services.rs:262-533 | reload, stop and delete: exactly what each refuses (a delete of a bad name, a running service, a missing file or one that cannot be removed), what each changes, and that every graph stays accounted for |
| Services.Node.Boot | crates/daemon/src/boot.rs:326-351 | every file under its own name and no other, each with its flag and in the state its definition and its blocks warrant, resolved in turn, and every graph accounted for |
| Services.Node.Count | crates/daemon/src/boot.rs:223-233 | running, stopped and errored add up to the number of names |
| Services.Node.StopAll | crates/daemon/src/boot.rs:236-242 | every running graph is asked to stop once |
| Services.Node.JoinAll | crates/daemon/src/boot.rs:245-251 | every graph ever spawned has been spawned, stopped and joined once each, in that order |
| Services.Node.Live | crates/daemon/src/boot.rs:216-292 | over any boot and any operations, ending in stop and join, nothing spawned is left running and nothing is retired twice |
| Services.RemovingRetires | crates/daemon/src/boot.rs:388-401 | taking a name out and retiring what ran there leaves every graph accounted for |
| Capability.Capabilities.Dispatch | crates/conformance/src/capability.rs:145-210 | a call is denied, answered from its function's queue, or answered by the host itself, in that order; computes the host's step |
| Capability.HostIsItsHistory | crates/conformance/src/capability.rs:145-274 | told from the calls as they were made: the store holds what the last well-formed write to each key named, ids are 0, 1, 2 and so on to the calls that asked, queues hold what was scripted and not given out |
| Capability.EveryAnswerIsTold | crates/conformance/src/capability.rs:145-297 | over any run, the number and the memory each call is answered with, from its arguments and the calls before it: denied, as scripted into the buffer it offers, or the host's own, with the exact malformed cases |
| Capability.ScriptsAreGivenOnce | crates/conformance/src/capability.rs:152-162 | every scripted answer is still queued or was given to one caller, in order |
| Capability.OwnEffects | crates/host-core/src/state.rs:134-200 | a call changes the host exactly as its arguments ask: the key and value they point at, the key deleted, one id |
| Capability.GetReadsTheLastPut | crates/conformance/src/capability.rs:257-274 | an unscripted read puts the last undeleted write in the guest's buffer and nowhere else; reports a size over the capacity, a value or buffer no memory holds, or a bad key, and then writes nothing |
| Capability.CancelKnowsTheIdsGiven | crates/conformance/src/capability.rs:212-227 | cancelling succeeds for exactly the issued ids, exactly while at most 2^31-1 were issued |
| Capability.TheFirstOfTooManyIsForgotten | crates/conformance/src/capability.rs:212-227 | after 2^31 watches the first id given cannot be cancelled |
| Capability.DeniedCallsAreInvisible | crates/conformance/src/capability.rs:145-160 | a denied call changes nothing, now or later |
| Hex.Hex | crates/conformance/src/run.rs:1036-1046 | the loop writes the two lowercase digits of each byte |
| Hex.UnhexReadsSpellings | crates/conformance/src/run.rs:1052-1063 | `unhex` reads exactly the texts whose pairs spell the bytes |
| Hex.UnhexUndoesHex | crates/conformance/src/run.rs:1036-1063 | reading hex back gives the bytes it was written from |
| Hex.HexIsInjective | crates/conformance/src/run.rs:1036-1046 | two byte strings never share a hex text |
| Hex.ComparingHexComparesBytes | crates/conformance/src/run.rs:900-914 | comparing the hex of the emitted bytes with the lowered expectation compares the bytes, plus signs aside |
| Hex.PlusPassesForADigit | crates/conformance/src/run.rs:1048-1063 | `unhex` is not strict: one concrete text shows it |
| Hex.SlicingPanicsExactly | crates/conformance/src/run.rs:1057-1062 | `unhex` panics exactly when its first pair that is no byte cuts a character, and never on ASCII |
| Hex.SlicingCanPanic | crates/conformance/src/run.rs:1057-1062 | a concrete text that does |
| Scenario.PlusIsAssociative | crates/conformance/src/run.rs:545-552 | observations join without regard to how they are grouped |
| Scenario.PlusAppends | crates/conformance/src/run.rs:545-552 | what is heard later comes after what was heard before, whole and in order |
| Scenario.PortsHaveOneName | crates/host-core/src/descriptor.rs:50-62 | which ports have a name and which; a name is one port's alone exactly when the declared names are distinct and none is reserved |
| Lifecycle.PlaceIsProper | crates/host-core/src/memory.rs:74-91 | placing a payload asks for memory, trusts only an aligned nonzero answer, and writes inside it; what each outcome leaves |
| Lifecycle.HandIsProper | crates/host-core/src/instance.rs:382-640 | a payload-bearing callback keeps the lifecycle's order and draws no fault |
| Lifecycle.HandKeeps | crates/host-core/src/instance.rs:382-640 | nothing heard during a callback is lost |
| Lifecycle.VersionIsProper | crates/conformance/src/run.rs:181-198 | reading the ABI version is the first thing asked of a guest |
| Check.FindPart | crates/conformance/src/run.rs:794-797 | substring search, both ways |
| Check.TextsNameTheirOwn | crates/conformance/src/run.rs:846-891 | a port and a property are called by their own name, or said to have none |
| Check.CheckEmissions | crates/conformance/src/run.rs:870-916 | emissions are complained of exactly when count, a port or a byte differs |
| Check.CheckOutcome | crates/conformance/src/run.rs:709-750 | rejection, refusal and status: exactly the unmet ones |
| Check.CheckLists | crates/conformance/src/run.rs:752-843 | emissions, logs and error details: exactly the unmet ones |
| Check.CheckCounts | crates/conformance/src/run.rs:755-866 | calls, evaluations and property failures: exactly the unmet ones |
| Check.Check | crates/conformance/src/run.rs:693-866 | no violation exactly when the observation satisfies the declarative reading of the expectation; an unasked death is the one complaint; otherwise each clause is complained of exactly when unmet |
| Walk.Walker.constructor | crates/conformance/src/run.rs:237-246 | a walk starts fresh from the host as it was set up, with the compile-time evaluations and the violations already found |
| Walk.Walker.Call | crates/conformance/src/run.rs:581-678 | one action against the stage, taken out first; computes the transition function, early returns and panics leaving the instance gone |
| Walk.Walker.Script | crates/conformance/src/run.rs:559-574 | answers are queued up to the first bad entry, which is a complaint or a panic |
| Walk.Walker.Step | crates/conformance/src/run.rs:532-556 | computes the step function, and adds no violation exactly when the step ran and what it saw satisfies its expectation |
| Walk.Walker.Run | crates/conformance/src/run.rs:247-249 | every step in turn until one panics; no violation exactly when every step holds |
| Walk.TransitionKeeps | crates/conformance/src/run.rs:581-678 | a transition only adds to what was heard and called |
| Walk.PanicsAskNothing | crates/conformance/src/run.rs:598-662 | an action that panics has asked the guest nothing, and one that complains has changed nothing |
| Walk.PanicsStand | crates/conformance/src/run.rs:247-249 | once a step has panicked, no later step changes anything |
| Runs.EveryRunIsProper | crates/conformance/src/run.rs:532-690 | for every scenario and guest, everything asked of the guest is in the lifecycle's order and the recorder finds no fault with the host |
| Runs.CallbacksAreOrdered | crates/conformance/src/run.rs:598-678 | callbacks are one configure, then starts, then deliveries, then one stop, and nothing after it |
| Runs.ComplaintsTouchNothing | crates/conformance/src/run.rs:576-678 | every `Err` comes before any guest call; an illegal transition restores the stage, any other complaint leaves it gone |
| Runs.OfferedIsShown | crates/conformance/src/run.rs:581-678 | an action is complained of exactly when its stage does not offer it or its text cannot be read, and for that; otherwise it is shown |
| Runs.TransitionLeads | crates/conformance/src/run.rs:581-678 | which stage each action leads to, told from what was shown: running only after a start answered 0, stopped after a stop, gone after a death, a rejection or an unreadable text |
| Runs.StagesFollowThePhases | crates/conformance/src/run.rs:532-690 | over every run, gone exactly when a step ended the instance, otherwise exactly the guest's own phase, and stopped exactly when the last thing asked was to stop and it answered |
| Driven.TransitionDrives | crates/conformance/src/run.rs:581-678 | every action is one run of operations on the bare engine; trace, calls and what was heard are that run's |
| Driven.StepShowsItsRun | crates/conformance/src/run.rs:532-556 | a step shows exactly the known host calls its own run of the guest made, by name and in order, and what they heard |
| Runs.ScriptReachesTheHost | crates/conformance/src/run.rs:559-574 | every scripted answer reaches the host as it was written and in order, up to the first entry that says none |
| Runs.ConfigureIsItsOwn | crates/conformance/src/run.rs:596-606 | configure hands the guest its descriptor; it stops early only for an unaddressable payload, a refused, misaligned or trapped allocation or a refused write, and what is shown is exactly that ending's number, rejection or death |
| Runs.DeliveryIsItsOwn | crates/conformance/src/run.rs:621-652 | a delivery within the limits hands the guest the canonical bytes of the named batch on the named port, stopping early only for those reasons, and shows exactly how it ended |
| Runs.HttpIsItsOwn | crates/conformance/src/run.rs:658-662 | a response hands the guest its request, its status and its body, stopping early only for those reasons, and shows exactly how it ended |
| Runs.PlainIsItsOwn | crates/conformance/src/run.rs:607-669 | start, timer, gpio and stop are each one engine call, their own callback with their own arguments, shown by its number or its death; or the death of an instance that does not export it |
| Runs.LimitsAreExact | crates/host-core/src/instance.rs:300-332 | a delivery is refused exactly when it is beyond the limits published, and for which |
| Runs.RefusalsTouchNothing | crates/conformance/src/run.rs:648-656 | a host refusal calls nothing and keeps the instance, and is never for the port |
| Runs.NothingFollowsTheEnd | crates/conformance/src/run.rs:581-678 | after a stop, a death or a rejection every later step complains and asks the guest nothing |
| Runs.NothingIsLost | crates/conformance/src/run.rs:540-553 | the per-step calls, emissions, logs, details, failures and evaluations join to the whole run's |
| Runs.EveryFailureIsCounted | crates/host-core/src/instance.rs:336-352 | a surviving instance's error count is the number of nonzero statuses its run was shown, saturating |
| Runs.StepPanicsExactly | crates/conformance/src/run.rs:559-662 | a step panics exactly when its script reaches a lone value that cuts a character, or it is an http or a delivery to a declared port, in a running instance, whose text does; and then the guest was asked nothing |
| Runs.RunPanicsExactly | crates/conformance/src/run.rs:247-249 | a walk panics exactly when a step it reaches does, from the stage the steps before led to |
| Runs.AsciiScenariosNeverPanic | crates/conformance/src/run.rs:55-57 | a walk written in ASCII panics against no guest |
| Runs.AScenarioPanics | crates/conformance/src/run.rs:55-57 | one scenario of valid text panics against every guest |
| Run.CheckRun | crates/conformance/src/run.rs:927-1011 | no complaint exactly when the whole-run expectation is met; a count or a measurement that was lost is a complaint |
| Run.CountIsOfEach | crates/conformance/src/run.rs:927-990 | the count of a disposition is of the allocations that came out that way, one each |
| Run.HexStateIsState | crates/conformance/src/run.rs:991-1010 | comparing stores as hex text compares them as bytes |
| Run.Conclude | crates/conformance/src/run.rs:251-288 | a run passes exactly when it has no violation, the host no fault, and its expectations hold: any fault fails it |
| Run.FirstDeathIsTheFirst | crates/conformance/src/run.rs:125-142 | the death a host without budgets is asked about is the first any step expects |
| Run.AgreeingIsPacked | crates/conformance/src/run.rs:181-198 | the ABI versions agree exactly when the packed number is the manifest's |
| Run.SeedingPanicsExactly | crates/conformance/src/run.rs:215-222 | seeding the state panics exactly at the first text that is not read, when that one cuts; it is done exactly when every text reads |
| Run.DenialsReachTheHost | crates/conformance/src/run.rs:212-216 | every denied namespace reaches the host |
| Run.SeedsReachTheHost | crates/conformance/src/run.rs:217-224 | every value of the initial state reaches the host under its key, as the bytes its text spells |
| Run.WalkBeginsSetUp | crates/conformance/src/run.rs:181-246 | the walk begins with the version read, then every namespace denied and every value seeded, and nothing heard |
| Run.Measure | crates/conformance/src/run.rs:251-265 | pages are counted by the bisection and only on a stopped instance, errors on one that is not gone |
| Run.RunWalk | crates/conformance/src/run.rs:181-288 | a walk passes exactly when the ABI versions agree, every step holds and the whole-run expectations hold; it panics exactly when a step does; the host is never what fails it |
| Run.RunLoaded | crates/conformance/src/run.rs:57-288 | from document to verdict: passing, being skipped and panicking each exactly when, with every setup branch in order |
| Run.Refused | crates/conformance/src/run.rs:301-459 | a refusal scenario passes exactly when it is well posed, the layer asked refused the module and named it as far as it can be held to; skipped exactly when the question cannot be put |
| Client.ReadSse | crates/cli/src/client.rs:618-651 | the loop dispatches exactly the stream's events in order until the callback refuses, and fails only when the stream does |
| Client.FoldsExactly | crates/cli/src/client.rs:640-648 | which lines a block reads, by what they begin with, and what of them it keeps; every other line leaves it alone |
| Client.EventsConcat | crates/cli/src/client.rs:625-649 | reading goes on from the block that was left open |
| Client.IgnoredLinesChangeNothing | crates/cli/src/client.rs:640-648 | a comment, `id:` or `retry:` line between any two lines of a stream changes nothing |
| Client.UnfinishedBlocksAreNotDispatched | crates/cli/src/client.rs:625-639 | a last block no blank line ends is never dispatched, however the stream ends |
| Sse.ReadUndoesPrint | crates/cli/src/client.rs:618-651 | a printed event reads back as itself exactly when its name and lines survive trimming and no first line of several is empty |
| Sse.OneEventDoesNotSurvive | crates/cli/src/client.rs:618-651 | data that begins with a newline reads back without it |
| Sse.ReadUndoesPrinting | crates/cli/src/client.rs:618-651 | a printed stream of such events reads back as it was |
| Sse.StreamsReadBack | crates/cli/src/client.rs:618-651 | what any printed stream reads back as, and that what follows it is read on its own |
| Mcp.BoundedSse | crates/cli/src/mcp.rs:806-826 | the bounded read keeps a prefix of the events, at most max(1, max), and says it reached the bound exactly when it stopped there |
| JsonBatch.ConversionKeepsTheDocument | crates/daemon/src/json_batch.rs:83-133 | a conversion that succeeds keeps shape, keys, order and leaf kinds at every depth |
| JsonBatch.FailureIsTheFirstBadLeaf | crates/daemon/src/json_batch.rs:83-133 | it fails exactly when some integer is above i64::MAX, and names the segments of the first in traversal order |
| JsonBatch.BatchFromJson | crates/daemon/src/json_batch.rs:56-81 | a batch is read exactly when the document is one, and an error is the first thing wrong with it, under the text of its path |
| JsonPath.PathNamesOnePlace | crates/daemon/src/json_batch.rs:83-133 | where every key is plain, two places have one path text exactly when they are one place |
| JsonPath.ConfusableExactly | crates/daemon/src/json_batch.rs:83-133 | a key can make a good and a bad leaf share their text exactly when it holds a dot or ends as an index does |
| JsonPath.OneConfusedDocument | crates/daemon/src/json_batch.rs:83-133 | `[{"a":{"b":1},"a.b":9223372036854775808}]` reports `[0].a.b`, which spells the good leaf too |
| Config.Config.Remove | crates/cli/src/config.rs:178-187 | removes a configured node, clearing the default that named it |
| Config.Config.SetDefault | crates/cli/src/config.rs:189-195 | a default always names a configured node |
| Config.Config.Resolve | crates/cli/src/config.rs:210-229 | the node asked for, or the default when none was, never a leaf, and each error exactly when |
| Nodes.Export | crates/cli/src/nodes.rs:177-209 | every configured node once, with the default |
| Nodes.Import | crates/cli/src/nodes.rs:211-280 | a merge that touches nothing on a foreign format and keeps the default naming a node |
| Nodes.MergeKeepsTheFirst | crates/cli/src/nodes.rs:233-257 | without force no existing entry changes, and the first row for a new name wins |
| Nodes.ForceKeepsTheLast | crates/cli/src/nodes.rs:233-257 | with force the last row for a name wins |
| Nodes.MergeIsIdempotent | crates/cli/src/nodes.rs:233-257 | importing a file twice is importing it once |
| Nodes.EveryRowIsTallied | crates/cli/src/nodes.rs:233-257 | each row lands in exactly one of added, updated and skipped |
| Nodes.ListsKeepTheOrder | crates/cli/src/nodes.rs:229-252 | added, updated and skipped each name their rows in the file's order |
| Nodes.AddedAreTheNewNames | crates/cli/src/nodes.rs:233-257 | the names reported added are exactly those that were not there |
| Nodes.ExportThenImportRestores | crates/cli/src/nodes.rs:177-275 | export then import into an empty configuration restores the nodes, and the default exactly when it names one |
| Nodes.OneDefaultIsLost | crates/cli/src/nodes.rs:177-275 | a default that names nothing is exported and not imported |
| Nodes.Run | crates/cli/src/config.rs:171-195 | over any run of commands the default names a configured node |
| FakeRegistry.Fake.Handle | crates/cargo-eio/src/fake_registry.rs:158-362 | the gate, the token endpoint and the API update the registry in place as specified |
| FakeRegistry.RegistryIsItsHistory | crates/cargo-eio/src/fake_registry.rs:231-362 | under every interleaving a session holds exactly the parts appended to it in order, a completed upload is stored as its own session received it, a manifest reads back at its reference and digest, and the mint count is the tokens answered |
| FakeRegistry.EveryAnswerIsTold | crates/cargo-eio/src/fake_registry.rs:158-362 | under every interleaving each answer is told by the requests before it: a read answers the last bytes pushed there or that nothing was, and every other verb and the gate what they did |
| FakeRegistry.SessionsAreFresh | crates/cargo-eio/src/fake_registry.rs:279-288 | no session is handed out twice |
| FakeRegistry.OwnUploadsAreWhole | crates/cargo-eio/src/fake_registry.rs:279-325 | whatever other clients do, an upload its owner sent in one piece is stored as that piece |
| FakeRegistry.PushedBlobsAreContentAddressed | crates/cargo-eio/src/fake_registry.rs:302-324 | though the server checks no digest, when every completion is this client's every blob hashes to its key |
| Oci.Push.Send | crates/cargo-eio/src/oci.rs:148-171 | one request, at most one dance, and the token kept; against any registry |
| Oci.SendsExactly | crates/cargo-eio/src/oci.rs:148-171 | against any registry: sent as answered, or after one challenge with the token granted; each failure exactly when |
| Oci.Push.Blob | crates/cargo-eio/src/oci.rs:77-102 | start, then complete under the digest of what is sent, with each failure |
| Oci.BlobsExactly | crates/cargo-eio/src/oci.rs:77-102 | against any registry: how a blob's push ends, from how its two requests were answered |
| Oci.Push.Manifest | crates/cargo-eio/src/oci.rs:104-117 | the manifest pushed at a tag, and its digest |
| Oci.ManifestsExactly | crates/cargo-eio/src/oci.rs:104-117 | against any registry: how a manifest's push ends, from how it was answered |
| Oci.Push.Publish | crates/cargo-eio/src/publish.rs:174-191 | config, module, manifest, each only after the one before succeeded |
| Oci.SendIsServed | crates/cargo-eio/src/oci.rs:148-171 | against this registry a welcome client's request is served and an unwelcome one's changes nothing |
| Oci.BlobIsStored | crates/cargo-eio/src/oci.rs:77-102 | a blob push stores exactly its bytes under their digest, or nothing |
| Oci.PublishReadsBack | crates/cargo-eio/src/publish.rs:174-191 | a publish succeeds exactly when the client is let in, with at most one token, and then every admitted read answers what was pushed, by tag and digest, barring a colliding config digest, and what was there elsewhere |
| Pushing.AloneIsSend | crates/cargo-eio/src/oci.rs:148-171 | taken a request at a time, a client sends what `send` sends, against any registry |
| Pushing.AloneIsBlob | crates/cargo-eio/src/oci.rs:77-102 | taken a request at a time, a lone client pushes a blob as `Push` does, against any registry |
| Pushing.AloneIsJobs | crates/cargo-eio/src/oci.rs:77-117 | left alone, a client does its whole list as `Push` would, and stops where `Push` would, with the same token and the same registry after |
| Pushing.PublishIsItsJobs | crates/cargo-eio/src/publish.rs:174-191 | a publish is the list config, module, manifest: same registry, same token, same failure |
| Pushing.ScheduledAloneIsTurns | crates/cargo-eio/src/oci.rs:148-171 | a client scheduled alone among others takes exactly its own turns, and no other moves |
| Pushing.WelcomeListsFinish | crates/cargo-eio/src/publish.rs:174-191 | a client the registry lets in finishes its whole list when it is given its turns |
| Pushing.ManifestsReadBack | crates/cargo-eio/src/fake_registry.rs:231-268 | a manifest reported pushed is what a read of its tag and of its digest answers, until a later push names that reference, and then that push's |
| Pushing.PushesDoNotInterfere | crates/cargo-eio/src/fake_registry.rs:231-362 | however many clients push at once and however their requests fall, every blob is the one its digest names, every blob reported pushed is there, every manifest reported pushed reads back until another replaces it, and no client had more than one token minted |

## Left out

- HTTP, TLS, TOML, file permissions, `ureq`, axum routing and tokio scheduling: I/O. A request is a step, the cache a map, a stream a text and how it ends.
- wasmtime and its linker (`crates/conformance/src/reference.rs`), module validation, expressions and canonical CBOR: an engine is any strategy, the others functions.
- sha256 is an uninterpreted function; cosign, DSSE and signing are not modelled.
- The executor: whether a validated service spawns is an input, and a graph is its spawn number.
- A scenario's property resolution and compilation, the linking of the module and the two registrations of host functions: how each came out is an input of `Run`.
- Service definitions, connections and overflow policies (`connections_for`, `validate` in `crates/daemon/src/boot.rs`): pure lookups; whether a definition wires up is a function of what its blocks resolve to.
- Block macros, the `new`, `build` and `template` commands, `show` rendering, the MCP tool methods, the Designer's user interface, `dlmalloc` and log levels.
- The wording and order of a step's violation details: a violation says which clause was not met, and the clauses are complained of in groups.
- The state store's keys as scenario text: the lossy decoding of keys that are not UTF-8 is not modelled.
- The recorder's registration of host functions is modelled as the set of names it knows.
- Request paths and query strings are parsed values: splitting them and percent-decoding are not modelled, nor resolving a `Location` against the host.
- A token request without a scope, which the test registry treats as a bug in the client.
- `HEAD` requests and the content-type and digest headers of the test registry's answers.
- The order of exported rows, which follows the node names; the model exports each node once in any order.
- The answerer that can replace the stub's queue is a function without state.
- Invalid UTF-8 in an event stream, which ends it like any read error.
- The JSON text reader: a document is the tree it leaves, fields in key order with one field a key.
- Windows path components: the accepted component is the Unix one.
