# Option parsing and worker-pool coordination of the miner, in Dafny

This project models two sequential cores of the XMRig-based miner.

**Option validation** (`src/Options.cpp`) is modelled as pure functions from a
configuration record to `(ok, configuration)`. It covers:

- the numeric range checks of `parseArg(int, uint64_t)`, both the strict
  ones and the silently ignored ones;
- the `strtol` conversions of the text dispatch, including the base-25
  reading of `--cc-client-log-lines-history`, which is kept as written;
- the boolean switches of `parseBoolean` and the command-line cases that
  call it;
- the name lookups `setAlgo`, `parsePowVariant` and `parseAsmOptimization`,
  with their alias tables;
- the `host[:port]` split of `parseCCUrl`;
- the legacy algorithm-variant reconciliation of
  `optimizeAlgorithmConfiguration`.

**The worker pool** (`src/workers/Workers.cpp`, `src/workers/Workers.h`) is
the static state `{active, enabled, paused, sequence, job, queue, handles,
ticks}`. Each entry point is a transition on it. Threads are abstracted away,
and every call is its serialised effect. Sequence 0 is the shutdown sentinel.

The RandomX side of the pool has its own state: the seed hash, the meeting
counter, and the cache and dataset handles. `updateDataset` is modelled as
three steps:

- entry: the seed check and taking a thread index;
- the wait loops, over a sequence of observed `(sequence, counter)` values;
- the cache refresh under the lock.

A whole round of `n` threads combines these steps. The split of the dataset
among threads is proved to be contiguous, disjoint, covering and balanced.

Modules; `algorithms.dfy` holds both `Wrappers` and `Algorithms`, and every
other file holds one module:

- `MachineInt`: the fixed-width conversions.
- `Strtol`: the C library's `strtol`.
- `Algorithms` and `Wrappers`: the enumerations and name tables.
- `OptionsConfig`: the configuration record, keys and defaults.
- `NumericOptions`, `BooleanOptions`, `NameLookup`, `CCUrl`, `AlgoConfig`
  and `TextOptions`: the option parsers.
- `WorkerPool`, `DatasetPartition` and `RxDataset`: the worker pool.

## Model

| member | source | states |
|---|---|---|
| MachineInt.ToUint64 | src/Options.cpp:640 | a `long` passed where `uint64_t` is expected is reduced modulo 2^64: a value in range is kept, a negative one gains 2^64 |
| MachineInt.ToUint16 | src/Options.cpp:1359 | the `uint16_t` cast gives the one value below 2^16 congruent to the argument modulo 2^16: a value in range is kept, a negative one down to -2^16 gains 2^16 |
| MachineInt.ToInt32 | src/Options.cpp:765 | the `(int)` cast of a `uint64_t` gives the one value in -2^31..2^31-1 congruent to the argument modulo 2^32, so the argument itself when below 2^31 |
| MachineInt.ToInt64 | src/Options.cpp:838-841 | storing a `uint64_t` in an `int64_t` keeps values below 2^63; a larger value `x` becomes the negative `x - 2^64` |
| MachineInt.Inc64 | src/workers/Workers.h:58 | a 64-bit increment always changes the value: +1, or 0 after 2^64 - 1 |
| Strtol.Parse | src/Options.cpp:640-642 | the `strtol` result always lies between LONG_MIN and LONG_MAX |
| Strtol.DecimalRoundTrip | src/Options.cpp:640 | base-10 `strtol` reads back the decimal text of any natural number, saturating at LONG_MAX |
| Strtol.NegativeDecimalRoundTrip | src/Options.cpp:640 | base-10 `strtol` reads "-" plus decimal text as the negated number, saturating at LONG_MIN |
| Strtol.HundredInBase25 | src/Options.cpp:642 | the text "100" read in base 25 is 625 |
| Algorithms.IndexOf | src/Options.cpp:1104-1108 | the `strcmp` scan gives the first position holding the name, or -1 exactly when the name is absent |
| Algorithms.IndexOfDistinct | src/Options.cpp:1104-1108 | in a table without repeats, the scan finds every entry at its own position |
| Algorithms.AlgoOrdinalOfIndex | src/Options.cpp:1106 | `static_cast<Algo>(i)` of a table position gives the algorithm whose ordinal is `i` |
| Algorithms.AlgoName | src/Options.cpp:369-372 | `algoName` returns the entry of `algo_names` at the algorithm's position, and no earlier entry spells it |
| Algorithms.AlgoShortName | src/Options.cpp:374-377 | `algoShortName` returns the entry of `algo_short_names` at the algorithm's position, and no earlier entry spells it |
| Algorithms.ShortNameRoundTrip | src/Options.cpp:315-322 | two algorithms share a short name exactly when they are the same, and looking a short name up in `algo_short_names` gives its algorithm back |
| NumericOptions.ParseNumber | src/Options.cpp:756-886 | a numeric option fails exactly when its strict range check fails; a failed or soft-ignored option leaves the configuration unchanged |
| NumericOptions.StrictOptions | src/Options.cpp:759-836 | retries are accepted iff 1 ≤ v ≤ 1000, retry-pause iff 1 ≤ v ≤ 3600 and max-cpu-usage iff 1 ≤ v ≤ 100; cc-update-interval iff v ≥ 1; threads iff v ≤ 1024 (the `arg < 0` test never fires); print-time iff v ≤ 1000; multihash-factor iff v ≤ MAX_NUM_HASH_BLOCKS; aesni iff v ≤ 2. A refused value changes nothing |
| NumericOptions.SoftOptions | src/Options.cpp:812-875 | a donate level outside 1..99, a priority above 5, an api-port or cc-port above 65536, or an affinity or thread mask of 0 is accepted and dropped. Otherwise the value is stored |
| NumericOptions.DefaultIsValid | src/Options.cpp:380-432 | the constructor's defaults lie inside the ranges the numeric options keep |
| NumericOptions.ParseNumberPreservesValid | src/Options.cpp:756-886 | no numeric option, accepted or not, takes a field out of its range |
| NumericOptions.ParseNumberIdempotent | src/Options.cpp:756-886 | giving a numeric option twice has the effect of giving it once |
| NumericOptions.UpdateIntervalTruncation | src/Options.cpp:862-869 | cc-update-interval is checked on the 64-bit value but stored through `(int)`, so 2^32 passes the check and stores 0 |
| BooleanOptions.FlagOf | src/Options.cpp:889-964 | `parseBoolean` has a case for a key exactly when the key is one of its seventeen switches |
| BooleanOptions.ParseBoolean | src/Options.cpp:889-967 | always returns true. An unknown key changes nothing. A known key's flag ends equal to `enable`, and no other flag changes except colours, which background and syslog turn off when enabled |
| BooleanOptions.OutputModesDisableColors | src/Options.cpp:896-904 | enabling background or syslog forces colours off; disabling either leaves colours as they were |
| BooleanOptions.LastSwitchWins | src/Options.cpp:889-967 | for every switch other than background and syslog, the last value given is the one that holds |
| BooleanOptions.ParseBooleanIdempotent | src/Options.cpp:889-967 | giving a switch the same value twice has the effect of giving it once |
| BooleanOptions.ColorsLostAfterBackground | src/Options.cpp:896-899 | enabling then disabling background leaves colours off; disabling alone keeps them |
| BooleanOptions.SwitchesCommute | src/Options.cpp:889-967 | two switches writing different flags, neither of them colours nor silencing colours, can be given in either order |
| BooleanOptions.SwitchValueAsWritten | src/Options.cpp:644-710 | the value the command-line cases pass to `parseBoolean` differs from the evidently meant one exactly on background, keepalive, syslog, safe, nicehash and the three cc-push switches, and it is never on where the meant value is off |
| BooleanOptions.ParseSwitchAsWritten | src/Options.cpp:644-710 | a switch on the command line, as written, always succeeds and leaves the algorithm settings, limits and server settings alone |
| BooleanOptions.ParseSwitch | src/Options.cpp:644-710 | a switch on the command line, corrected, always succeeds and leaves the algorithm settings, limits and server settings alone |
| BooleanOptions.SwitchesAsWrittenDisable | src/Options.cpp:644-710 | as written, background, keepalive, syslog, safe, nicehash and the three cc-push switches on the command line all leave their flag off |
| BooleanOptions.SwitchesEnable | src/Options.cpp:644-673 | corrected, every command-line switch leaves its flag on except `--no-color` and `--no-huge-pages`, which leave theirs off; background and syslog also turn colours off |
| NameLookup.IndexOfPrefix | src/Options.cpp:1104-1108 | a name is found at the first position holding it |
| NameLookup.SetAlgo | src/Options.cpp:1102-1155 | `setAlgo` succeeds exactly for a canonical name or an alias, and a refused name changes nothing. A canonical name selects the algorithm at its table position and keeps the PoW variant. An alias selects the algorithm, and possibly the variant, its table entry names. Only the algorithm and the PoW variant change, and the variant only through an alias that names one |
| NameLookup.VariantAliases | src/Options.cpp:1130-1146 | the only aliases that name a PoW variant are the three ipbc spellings and the two hospital spellings |
| NameLookup.SetAlgoScan | src/Options.cpp:1102-1155 | the loop as written, with its aliases tried on the last iteration, computes the same as `SetAlgo` |
| NameLookup.AlgoNameRoundTrip | src/Options.cpp:369-372 | the canonical name of any algorithm selects that algorithm and nothing else |
| NameLookup.IpbcAlias | src/Options.cpp:1130-1135 | "cn-lite-ipbc" selects cryptonight-lite with the TUBE variant |
| NameLookup.HospitalAlias | src/Options.cpp:1142-1146 | "cryptonight-hosp" selects cryptonight with the HOSP variant |
| NameLookup.HeavyAliasAgrees | src/Options.cpp:1137-1140 | the "cryptonight-heavy" alias selects the same algorithm as the canonical name it repeats |
| NameLookup.ShortNameRefused | src/Options.cpp:1102-1155 | the short name "cn" is not accepted by `setAlgo`, and the configuration is unchanged |
| NameLookup.ParsePowVariant | src/Options.cpp:1157-1270 | succeeds exactly for a table name or an alias, and a refused name changes nothing. Only the PoW variant changes. A table name selects the variant at its position, and an alias selects the variant the alias table fixes for it |
| NameLookup.ParsePowVariantScan | src/Options.cpp:1157-1270 | the loop as written computes the same as `ParsePowVariant` |
| NameLookup.PowVariantNamesDistinct | src/Options.cpp:324-346 | `pow_variant_names` holds no name twice |
| NameLookup.PowVariantNameRoundTrip | src/Options.cpp:1159-1163 | every PoW variant is selected by its own table name |
| NameLookup.PowMinusOne | src/Options.cpp:1165-1168 | "-1" selects autodetect |
| NameLookup.PowMoneroV8 | src/Options.cpp:1175 | "monerov8" selects the second Monero variant |
| NameLookup.ParseAsmOptimization | src/Options.cpp:1272-1292 | succeeds exactly for a table name, "none" or "0". A refused name changes nothing. Only the assembly optimisation changes. "none" and "0" select off |
| NameLookup.ParseAsmOptimizationScan | src/Options.cpp:1272-1292 | the loop bounded by the PoW table's size computes the same as `ParseAsmOptimization`. It never indexes past the five assembly names, because every path returns at the last of them |
| NameLookup.AsmOptimizationNamesDistinct | src/Options.cpp:348-354 | `asm_optimization_names` holds no name twice |
| NameLookup.AsmNameRoundTrip | src/Options.cpp:1274-1278 | every assembly optimisation is selected by its own name |
| NameLookup.AsmRefusesMinusOne | src/Options.cpp:1280-1288 | "-1" is refused for the assembly optimisation, while "0" selects off |
| CCUrl.FindChar | src/Options.cpp:1349 | `strchr` finds the first occurrence of the character, or none exactly when it is absent |
| CCUrl.ParseCCUrlAsWritten | src/Options.cpp:1345-1368 | as written, every URL is accepted. Without ':' the host is the whole text and the port the default. With ':' the host is exactly the text before the first ':' and the port is the `uint16_t` cast of what `strtol` reads after it, so it always lies below 2^16 |
| CCUrl.AsWrittenAgreesInRange | src/Options.cpp:1349-1364 | as written and corrected, the URL is split at the same colon; the two results are equal whenever there is no colon or the port reads as a value in 0..65535 |
| CCUrl.NegativePortWrapsAsWritten | src/Options.cpp:1358-1364 | as written, a port of `-n` for 1 ≤ n < 2^16 is accepted and stored as 2^16 - n; "-1" becomes 65535 |
| CCUrl.PortWrapsAsWritten | src/Options.cpp:1358-1364 | as written, "host:70000" is accepted with port 4464 |
| CCUrl.ParseCCUrl | src/Options.cpp:1345-1368 | without ':' the host is the whole text and the port is kDefaultCCPort. Otherwise the host is exactly the text before the first ':'. Corrected, the parse succeeds iff the port value lies in 0..65536, and a refused port leaves the default |
| CCUrl.CCUrlRoundTrip | src/Options.cpp:1345-1368 | corrected, `host:port` for a host without ':' and any port up to 65536 sets exactly that host and port |
| CCUrl.PortOutOfRangeRefused | src/Options.cpp:1361-1364 | corrected, "host:70000" is refused and leaves the default port |
| AlgoConfig.LegacyOf | src/Options.cpp:1301-1323 | the legacy variants 1 to 4 mean one or two hashes at a time, with AES-NI on for variants 1 and 2 and off for 3 and 4. Every other value means nothing |
| AlgoConfig.OptimizeAlgorithmConfiguration | src/Options.cpp:1295-1343 | only the hash factor and AES-NI change. AES-NI is never left on auto, and safe mode always follows the processor. A non-auto legacy variant only fills a hash factor of 0 and only replaces AES-NI on auto. For heavy or XFH the hash factor ends at most 3 |
| AlgoConfig.LegacyAesOverridesCpu | src/Options.cpp:1299-1335 | `--av 1` with AES-NI on auto and no safe mode turns AES-NI on even when the processor lacks it |
| AlgoConfig.DefaultsFollowCpu | src/Options.cpp:1295-1343 | with the constructor's defaults, reconciliation only sets AES-NI to what the processor supports |
| AlgoConfig.OptimizeIdempotent | src/Options.cpp:1295-1343 | reconciling a second time changes nothing |
| TextOptions.ParseText | src/Options.cpp:524-753 | the option dispatch, corrected: each option writes only its own part of the configuration. A switch always succeeds and touches only the flags; a name lookup touches only the algorithm settings; `--cc-url` only the host and port; `--daemonized` only adds its flag. A refused option changes nothing, except a refused `--cc-url`, which has replaced the host and reset the port to the default |
| TextOptions.ParseTextAsWritten | src/Options.cpp:524-753 | the option dispatch as written: the same separation of parts, with the switch values the source passes. `--cc-url` never fails, so a refused option always leaves the configuration unchanged |
| TextOptions.ParseOther | src/Options.cpp:527-718 | the numeric, name and `--daemonized` cases, which both dispatches share: a refused option changes nothing, a name lookup touches only the algorithm settings, and `--daemonized` only adds its flag |
| TextOptions.DispatchesDifferOnlyAtDefects | src/Options.cpp:644-710 | the dispatch as written and the corrected one agree on every option except the eight defective switches and a `--cc-url` whose port the cast wraps; even there they set the same host |
| TextOptions.NumericDispatch | src/Options.cpp:628-640 | a numeric option given as text is read with `strtol` in its base and passed to the range checks |
| TextOptions.RetriesTextRoundTrip | src/Options.cpp:628-640 | the decimal text of a retry count in 1..1000 sets it |
| TextOptions.NegativeRetriesRefused | src/Options.cpp:640 | a negative retry count converts to a huge unsigned value and is refused |
| TextOptions.NegativePriorityIgnored | src/Options.cpp:636-640 | a negative CPU priority converts to a huge value, is accepted and is dropped |
| TextOptions.LogLinesReadInBase25 | src/Options.cpp:641-642 | `--cc-client-log-lines-history 100` stores 625, because the text is read in base 25 |
| TextOptions.LogLinesStored | src/Options.cpp:877-879 | a log-lines history that fits an `int` is stored as it is |
| TextOptions.ThreadsAll | src/Options.cpp:712-716 | `--threads` text starting with "all" takes the processor's thread count |
| WorkerPool.Initial | src/workers/Workers.cpp:40-49 | the pool starts enabled but not active, not paused, with the sequence at the sentinel value 0, an empty queue, no handles and no ticks |
| WorkerPool.IsOutdated | src/workers/Workers.h:55 | a worker holding sequence `s` must drop its job exactly when the pool's sequence is no longer `s` |
| WorkerPool.IsPaused | src/workers/Workers.h:56 | the workers are paused exactly when `paused` holds 1 |
| WorkerPool.Sequence | src/workers/Workers.h:57 | `sequence()` reads the stored counter and changes nothing |
| WorkerPool.IsEnabled | src/workers/Workers.h:54 | `isEnabled()` reads the stored switch and changes nothing |
| WorkerPool.AccessorsAgree | src/workers/Workers.h:55-57 | `isOutdated(s)` holds iff the sequence differs from `s`; a worker holding `sequence()` is never outdated |
| WorkerPool.Start | src/workers/Workers.cpp:109-129 | start sets sequence to 1 and paused to 1. It appends one handle per index 0..threads-1, none with a worker yet. Nothing else changes |
| WorkerPool.OnReady | src/workers/Workers.cpp:222-227 | only the ready thread's handle gains its worker |
| WorkerPool.Stop | src/workers/Workers.cpp:197-209 | stop sets the sentinel: sequence 0 and not paused. Nothing else changes |
| WorkerPool.SetEnabled | src/workers/Workers.cpp:77-90 | setting the current value is a no-op. Before the first job only `enabled` changes. Otherwise the workers pause iff disabled, and the sequence moves on by one |
| WorkerPool.SetJob | src/workers/Workers.cpp:93-106 | the job is always replaced and the pool becomes active. When enabled, the sequence moves on by one and the workers resume. When disabled, sequence and paused are unchanged |
| WorkerPool.Pause | src/workers/Workers.h:58 | pause clears `active`, pauses, and moves the sequence on by one. `enabled` and everything else are unchanged |
| WorkerPool.PauseOutdates | src/workers/Workers.h:55-58 | a worker holding the sequence from before `pause` is outdated afterwards, even when the counter wraps |
| WorkerPool.DisabledJobIsSilent | src/workers/Workers.cpp:99-102 | while disabled, a new job neither resumes the workers nor outdates them |
| WorkerPool.OffOnResumes | src/workers/Workers.cpp:77-106 | a job followed by disable and re-enable leaves the workers running that job, and a worker holding the first sequence is outdated |
| WorkerPool.RunningUntilStopped | src/workers/Workers.cpp:89-105 | short of a wrap, `setJob`, `setEnabled` and `pause` never produce the shutdown sentinel |
| WorkerPool.Submit | src/workers/Workers.cpp:212-219 | submit appends the result to the back of the queue and changes nothing else |
| WorkerPool.SubmitAllAppends | src/workers/Workers.cpp:212-219 | results submitted one after another end up in the queue in submission order |
| WorkerPool.OnResult | src/workers/Workers.cpp:230-246 | every queued result reaches the listener exactly once, in FIFO order. The queue is left empty |
| WorkerPool.SubmitThenDeliver | src/workers/Workers.cpp:212-246 | results submitted after those already waiting are delivered after them, in submission order |
| WorkerPool.OnTick | src/workers/Workers.cpp:249-261 | with every handle ready, all threads are sampled in order and the tick count advances; the highest rate is updated exactly when the previous count is 0 mod 16. If a handle has no worker, the tick stops there: only the handles before it are sampled, and the count does not advance |
| WorkerPool.HighestCadence | src/workers/Workers.cpp:259-261 | from a fresh counter, `k` complete ticks update the highest rate ⌈k/16⌉ times: on ticks 0, 16, 32, … |
| DatasetPartition.LoMonotone | src/workers/Workers.cpp:158-159 | the range starts grow with the thread index |
| DatasetPartition.Ends | src/workers/Workers.cpp:158-159 | the first range starts at item 0 and the last ends at the item count |
| DatasetPartition.Disjoint | src/workers/Workers.cpp:158-160 | an earlier thread's range ends at or before a later thread's range starts |
| DatasetPartition.Balanced | src/workers/Workers.cpp:158-160 | every range holds `count / n` items or one more |
| DatasetPartition.Covers | src/workers/Workers.cpp:158-160 | every item lies in some thread's range |
| DatasetPartition.OwnerUnique | src/workers/Workers.cpp:158-160 | no item lies in two threads' ranges |
| DatasetPartition.Total | src/workers/Workers.cpp:158-160 | the lengths of the first `k` ranges add up to the start of range `k`, so all `n` add up to the count |
| RxDataset.Initial | src/workers/Workers.cpp:55-59 | the RandomX state starts with a zero seed, no cache, no dataset and the counter at 0, so the first update with any other seed enters as thread 0 |
| RxDataset.Enter | src/workers/Workers.cpp:134-137 | a thread seeing the stored seed equal to the new one returns without touching the counter. Otherwise it takes the counter as its index and increments it |
| RxDataset.Wait | src/workers/Workers.cpp:141-147 | a wait loop returns at the first pass that sees sequence 0, and lets the thread on at the first pass that sees the counter at its target. Before either, it keeps waiting |
| RxDataset.StopEndsWait | src/workers/Workers.cpp:166-172 | once a pass sees the shutdown sentinel, the wait has ended at or before it, whatever the counter does |
| RxDataset.Refresh | src/workers/Workers.cpp:150-155 | under the lock, the cache is initialised only when the seed still differs, and afterwards the stored seed is the new one |
| RxDataset.RefreshOncePerSeed | src/workers/Workers.cpp:150-155 | however many threads pass the lock in turn, the cache is initialised exactly once for a new seed and never for the current one |
| RxDataset.UpdateRound | src/workers/Workers.cpp:131-173 | with the current seed, every thread leaves and nothing changes. With a new seed, `n` threads initialise the cache once and store the seed. Thread `i` fills exactly range `i` of the partition, and the counter ends at 0 |
| RxDataset.GetDataset | src/workers/Workers.cpp:175-195 | an existing dataset is returned without allocating. Otherwise large pages are tried first and the default is the fallback, for the dataset and for the cache. A fallback is requested exactly when the large-page request failed |
| RxDataset.GetDatasetIdempotent | src/workers/Workers.cpp:177-178 | once a dataset has been returned, every later call returns the same one without allocating |

## Left out

- The getopt loop, usage, version and deprecation printing, and `Options::parse` ownership. These are process plumbing.
- JSON configuration loading (`getJSON`, `parseConfig`, `parseJSON`). This is file I/O plus the JSON library.
- String-valued options (`strdup` copies of tokens, paths and user names), `--url`, `--userpass`, `--user` and `--pass`. The `Url` class is not part of this model. Its keepalive, nicehash and TLS switches are kept as flags of the last pool.
- The `strtoull` reading of `--cpu-affinity` and `--multihash-thread-mask` text, with its `0x` search. The numeric checks on the converted value are modelled.
- `Strtol.Parse`: the `0x` prefix and base 0 are not modelled, because the source only uses bases 10 and 25.
- `Cpu::hasAES` is a parameter. `Cpu::optimizeParameters` and `Cpu::asmOptimization` are not part of this model. The hash-factor cap is stated for the configuration handed to `optimizeParameters`.
- The values of `kDefaultCCPort` and `MAX_NUM_HASH_BLOCKS` come from headers that are not part of this model. They are arbitrary constants, so every property holds for any value.
- Thread interleavings: barriers, atomics, memory ordering, locks, the libuv async and timer handles, and `Handle` start and join. Each call is modelled as its serialised effect. `RxDataset.UpdateRound` schedules all entries, then all lock passes, then all fills.
- The RandomX library. Cache initialisation is a counter, allocations are parameters, and a dataset fill is the range it covers.
- `Hashrate` internals (`add`, `updateHighest`, `print`), `Api::tick`, `CCClient::updateHashrate` and logging. `OnTick` returns the sampled thread ids and whether the highest rate was updated.
- DatasetPartition.Lo: the products are on unbounded naturals. The width of `randomx_dataset_item_count()` and the `uint32_t` truncation are left out.
- RxDataset.Enter: the 32-bit wrap of the meeting counter is left out, because it would need 2^32 threads.
- `Workers::job()` and `printHashrate` are left out: they are a locked copy and a print.

## Findings

| source | as written | input that shows it | evidently intended | confidence | as-written member | corrected member |
|---|---|---|---|---|---|---|
| src/Options.cpp:644-652 | the case labels for `--background`, `--keepalive`, `--syslog`, `--safe` and `--nicehash` have no statement and fall through to `return parseBoolean(key, false)` of `--no-color` and `--no-huge-pages` | `--background` on the command line leaves background mode off | each of these switches turns its mode on, as their usage lines say | high, not executed | BooleanOptions.SwitchesAsWrittenDisable | BooleanOptions.SwitchesEnable |
| src/Options.cpp:703-710 | `--cc-push-miner-offline-info`, `--cc-push-periodic-mining-status` and `--cc-push-miner-zero-hash-info` call `parseBoolean(key, false)` | `--cc-push-miner-offline-info` leaves the notification off, which is already its default | the switches turn their notification on, as the usage text at lines 124-126 describes | medium, not executed | BooleanOptions.SwitchesAsWrittenDisable | BooleanOptions.SwitchesEnable |
| src/Options.cpp:1358-1364 | the port is cast to `uint16_t` before the range check, so `m_ccPort < 0 \|\| m_ccPort > 65536` can never hold and the error branch is dead | "host:70000" is accepted with port 4464 | the value `strtol` read is checked against 0..65536 before it is stored, and an out-of-range port fails the parse | high, not executed | CCUrl.PortWrapsAsWritten | CCUrl.ParseCCUrl |
