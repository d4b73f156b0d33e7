# CerebraX core, modelled in Dafny

CerebraX samples host telemetry (memory, swap, CPU, disk and network) and streams it to
user-supplied coroutine "addons". It includes a configuration-file watcher, proxy and
certificate helpers, and registries for request clients, Redis connections and the
proxy process. This project models that core and proves properties of the model.

- **System monitor** (`src/cerebrax/monitor/monitor.py`):
  - the plugin contract (`Addon`, `Addons`) and its signature checks;
  - the validated `Options`;
  - the reusable thread pool;
  - the `SystemMonitor` controller. It keeps one bounded channel per monitored kind, the
    producer and processor task maps, and the running/exit flags. `start` and `stop`
    keep them in step.
- **Second pipeline variant** (`resmon.py`): the `ResourceChangesMonitor`, with one
  queue of 128 per aspect. It is guarded by two exit flags, and its `get_data` stream
  zips one head per queue into a record.
- **Configuration watchers** (`monitor/config.py` and its copy `app/cfg_monitor.py`):
  - the latest-value queue of capacity one;
  - the `event_flow` stream;
  - the guarded and the unguarded monitor.
- **Proxy settings** (`tools/type_and_module.py`, `_models.py`): the `correct_pattern`
  validators of the mitmproxy startup command, and the lifespan models with their
  defaults.
- **CA certificate selection** (`proxy/certificate.py`): which URL and file name a
  platform gets.
- **Watchdog handler builder** (`tools/file_monitor.py`): the argument validators and
  the handler and observer registry.
- **Request clients**:
  - the configuration parsers (`request/_parse.py`);
  - the Playwright and httpx client registries (`other/request/client.py`), each keyed
    by id beside a lookup set.
- **Redis connection registry** (`other/database/memory_database.py`).
- **Proxy process handle** (`proxy/proxy_handler.py`).

Pure logic is modelled as functions over datatypes; this covers the validators, the
parsers, the certificate selection and the queue discipline. Objects whose fields the
source updates are classes whose methods state the whole new state. Python exceptions
are the `Wrappers.Error` tags of a `Result`. Foreign inputs enter as parameters:

- `shlex.split`, `sys.stdin.isatty()` and `platform.system()`;
- the pid returned by `Popen`, generated UUIDs and the watchdog class names;
- the outcome of every bounded wait.

asyncio queues are values (`Channels.Channel`). Tasks are handles with serials;
creating a task records it, and cancelling a task adds it to a `cancelled` set.

## Model

| member | source | states |
|---|---|---|
| `Channels.PutNowait` | src/cerebrax/monitor/config.py:37 | `put_nowait` fails exactly on a full bounded queue; otherwise the item joins the back and the bound is kept |
| `Channels.GetNowait` | src/cerebrax/monitor/config.py:39 | `get_nowait` fails exactly on an empty queue; otherwise it hands out the oldest item and leaves the rest in order |
| `Channels.PutLatest` | src/cerebrax/monitor/config.py:35-41 | the latest-value put: `put_nowait`, and on a full queue drop the head and try again; the capacity is kept, and what it leaves is stated by `PutLatestKeepsNewest` and `PutLatestIsLast` |
| `Channels.PutLatestKeepsNewest` | src/cerebrax/monitor/config.py:35-41 | the drop-oldest-and-retry put keeps exactly the newest `min(n+1, maxsize)` items of old items + new item (all of them when unbounded) |
| `Channels.PutLatestIsLast` | src/cerebrax/app/cfg_monitor.py:35-41 | after a latest-value put, the new item is last and a bounded queue is within its bound |
| `Channels.PutAll` | src/cerebrax/monitor/config.py:22-41 | one latest-value put per event, in arrival order; its outcomes are stated by `CapacityOneKeepsLatest`, `PutAllWithoutOverflow` and `PutAllWithinBound` |
| `Channels.CapacityOneKeepsLatest` | src/cerebrax/monitor/config.py:69 | a queue of capacity one holds exactly the latest item after any non-empty sequence of puts |
| `Channels.PutAllWithoutOverflow` | src/cerebrax/monitor/config.py:37 | puts that never meet a full queue lose nothing and keep arrival order (FIFO) |
| `Channels.PutAllWithinBound` | src/cerebrax/app/cfg_monitor.py:37-40 | no sequence of latest-value puts ever takes a bounded queue past its bound |
| `ThreadPool.FirstBad` | src/cerebrax/monitor/monitor.py:128-131 | the index of the first task tuple `submits` refuses: every earlier tuple is non-empty with a callable first, and the tuple at the index is not |
| `ThreadPool.Results` | src/cerebrax/monitor/monitor.py:134-137 | one result per task, in task order, each the outcome of calling the task's callable on its arguments |
| `ThreadPool.RefusalOf` | src/cerebrax/monitor/monitor.py:129-131 | the exception a refused task tuple raises: `IndexError` from `task[0]` on an empty tuple, else `RuntimeError` for a non-callable; used by `Submits` |
| `ThreadPool.ReusableThreadPool.constructor` | src/cerebrax/monitor/monitor.py:98-99 | a new pool has no executor and no history |
| `ThreadPool.ReusableThreadPool.Start` | src/cerebrax/monitor/monitor.py:101-104 | creates an executor only when there is none (a second start changes nothing); a non-positive `max_workers` is refused with `ValueError` |
| `ThreadPool.ReusableThreadPool.Stop` | src/cerebrax/monitor/monitor.py:106-110 | a stop shuts down the current executor once and forgets it; stopping an idle pool changes nothing |
| `ThreadPool.ReusableThreadPool.Map` | src/cerebrax/monitor/monitor.py:112-117 | empty without an executor; with one, the `chunk_size` keyword makes `Executor.map` raise `TypeError` |
| `ThreadPool.ReusableThreadPool.Submit` | src/cerebrax/monitor/monitor.py:119-123 | `None` without an executor; otherwise the task is submitted and its awaited result returned, or `TypeError` for a non-callable |
| `ThreadPool.ReusableThreadPool.Submits` | src/cerebrax/monitor/monitor.py:125-138 | submits tasks in order up to the first refused one (`IndexError` for an empty tuple, `RuntimeError` for a non-callable), after the earlier ones are already submitted; otherwise returns the results, a permutation in completion order and exactly task order when `ordered` |
| `ThreadPool.RepeatedStartStop` | src/other/t.py:9-18 | start twice then stop twice creates exactly one executor and shuts it down exactly once |
| `ThreadPool.IdlePoolReturnsNothing` | src/other/t.py:20-35 | without an executor, `map`, `submit` and `submits` return empty results and submit nothing |
| `MonitorOptions.KindOf` | src/cerebrax/monitor/monitor.py:222 | exactly the names in `Monitoring` stand for a kind, and that kind carries the name |
| `MonitorOptions.HasExplicitParam` | src/cerebrax/monitor/monitor.py:146-147 | `TypeError` exactly for a non-callable; otherwise true iff the signature has a parameter of that name |
| `MonitorOptions.AnticipantCallable` | src/cerebrax/monitor/monitor.py:149-156 | raises exactly for a non-callable; otherwise true iff the value is a coroutine function with an `item` parameter |
| `MonitorOptions.MakeAddon` | src/cerebrax/monitor/monitor.py:158-167 | an `Addon` is built iff its `unite` meets the addon contract, keeping the value; `TypeError` for a non-callable, a validation error otherwise |
| `MonitorOptions.CheckOptional` | src/cerebrax/monitor/monitor.py:180-185 | a field validator of `Addons` passes `None` and every acceptable processor unchanged, and nothing else |
| `MonitorOptions.MakeAddons` | src/cerebrax/monitor/monitor.py:173-213 | an `Addons` is built iff every field that is set meets the addon contract, and it then holds the fields as given |
| `MonitorOptions.CheckMonitoring` | src/cerebrax/monitor/monitor.py:256-264 | accepts exactly a non-empty list of known kind names, returned unchanged |
| `MonitorOptions.CheckRefreshInterval` | src/cerebrax/monitor/monitor.py:232-238 | a negative interval becomes 0; any other is kept |
| `MonitorOptions.CheckThreadPoolMaxWorkers` | src/cerebrax/monitor/monitor.py:240-246 | a non-positive worker count becomes 1; any other is kept |
| `MonitorOptions.CheckChannelQueueMaxSize` | src/cerebrax/monitor/monitor.py:248-254 | a negative capacity becomes 0 (unbounded); any other is kept |
| `MonitorOptions.ClampsAreIdempotent` | src/cerebrax/monitor/monitor.py:232-254 | each of the three numeric validators maps its own output to itself |
| `MonitorOptions.CheckAddons` | src/cerebrax/monitor/monitor.py:266-280 | intended `_check_addons`: unified mode accepts exactly an `Addon`; per-kind mode accepts exactly an `Addons` with a processor for every monitored kind, returned as it is |
| `MonitorOptions.CheckAddonsAsWritten` | src/cerebrax/monitor/monitor.py:266-280 | `_check_addons` as written, the loop rebinding `v`; related to the intended validator by `CheckAddonsReturnsLastField` |
| `MonitorOptions.CheckAddonsReturnsLastField` | src/cerebrax/monitor/monitor.py:276-280 | the validator as written accepts exactly what the intended one accepts, but in per-kind mode returns the `network` field instead of the `Addons` |
| `MonitorOptions.CheckAddonsAsWrittenExample` | src/cerebrax/monitor/monitor.py:277 | concretely, a complete `Addons` of one processor `f` validates to `f` itself |
| `MonitorOptions.CheckAddonsFieldAsWritten` | src/cerebrax/monitor/monitor.py:227-280 | the `addons` field as written: the validator's return value checked against `Union[Addon, Addons]`; stated by `PerKindOptionsNeverValidate` |
| `MonitorOptions.PerKindOptionsNeverValidate` | src/cerebrax/monitor/monitor.py:226-280 | as written, no `addons` value validates with `unite_async_generator=False`, however complete; a unified configuration validates as intended |
| `MonitorOptions.Kinds` | src/cerebrax/monitor/monitor.py:225 | a validated list of names becomes the list of kinds with those names, in the same order |
| `MonitorOptions.KindsMembership` | src/cerebrax/monitor/monitor.py:278 | a kind is monitored exactly when its name is listed |
| `MonitorOptions.MakeOptions` | src/cerebrax/monitor/monitor.py:224-280 | `Options` are built iff the monitoring list and the addons validate; the result keeps the kinds in order with the intended addon binding, applies the three clamps and satisfies the `Options` invariant |
| `MonitorOptions.MissingAddonRejected` | src/cerebrax/monitor/monitor.py:278-279 | in per-kind mode, an `Addons` missing a monitored kind is refused at construction |
| `MonitorOptions.DefaultOptions` | src/cerebrax/monitor/monitor.py:225-230 | with any `Addon`, the declared defaults satisfy the `Options` invariant and monitor all five kinds |
| `SystemMonitoring.FreshQueues` | src/cerebrax/monitor/monitor.py:306-308 | exactly one empty channel of the configured capacity per monitored kind |
| `SystemMonitoring.Spawn` | src/cerebrax/monitor/monitor.py:328-331 | registering one new task per key adds exactly those keys; entries under keys not spawned are untouched |
| `SystemMonitoring.StopAll` | src/cerebrax/monitor/monitor.py:333-341 | the per-kind stops of the monitoring list, one after the other; its closed form is `StopAllClosedForm` |
| `SystemMonitoring.StopAllClosedForm` | src/cerebrax/monitor/monitor.py:333-341 | running the per-kind stops of a list removes exactly the listed kinds' producers and cancels exactly their tasks |
| `SystemMonitoring.RepeatsIffDuplicates` | src/cerebrax/monitor/monitor.py:529 | a monitoring list repeats a kind exactly when it has duplicates |
| `SystemMonitoring.StopFailure` | src/cerebrax/monitor/monitor.py:529-530 | the exception the gathered stops raise: `AttributeError` when a kind has no producer, else `KeyError` when a kind is listed twice; characterised by `StopFailureCases` |
| `SystemMonitoring.StopFailureCases` | src/cerebrax/monitor/monitor.py:529-530 | right after a start, the gathered stops fail exactly when a kind is listed twice; with no producers they always fail with `AttributeError` |
| `SystemMonitoring.SystemMonitor.constructor` | src/cerebrax/monitor/monitor.py:291-304 | the controller copies the options, owns an idle pool and fresh queues, and starts idle with empty task maps |
| `SystemMonitoring.SystemMonitor.CreateProcessor` | src/cerebrax/monitor/monitor.py:488-498 | one new processor task under "unite", or under each monitored kind, and nothing else changes |
| `SystemMonitoring.SystemMonitor.DelProcessor` | src/cerebrax/monitor/monitor.py:500-507 | the processor map is always cleared; a timeout cancels every processor and raises `TimeoutError` |
| `SystemMonitoring.SystemMonitor.StopKindMonitoring` | src/cerebrax/monitor/monitor.py:333-341 | cancels and deletes the kind's producer; with none, `AttributeError` and nothing changes |
| `SystemMonitoring.SystemMonitor.StartProducers` | src/cerebrax/monitor/monitor.py:518-520 | one new producer per monitored kind, later equal kinds overwriting earlier ones |
| `SystemMonitoring.SystemMonitor.Start` | src/cerebrax/monitor/monitor.py:509-521 | sets the flags, registers processors and then producers, keeps or creates the pool's executor; the queues and cancellations are unchanged and the invariant holds |
| `SystemMonitoring.SystemMonitor.StopProducers` | src/cerebrax/monitor/monitor.py:529-530 | every monitored producer is removed and its task cancelled; the result is `AttributeError` if a kind had none, else `KeyError` if a kind is listed twice, else success with no producer left |
| `SystemMonitoring.SystemMonitor.Stop` | src/cerebrax/monitor/monitor.py:523-535 | clears the flags and the processors; a processor timeout stops before the producers; a failing producer stop leaves pool and queues; success shuts the pool down and leaves fresh queues |
| `SystemMonitoring.StartThenStop` | src/cerebrax/monitor/monitor.py:509-535 | start then stop from idle succeeds iff no kind is listed twice, and then leaves no task, the pool shut down and fresh queues |
| `ResMon.IntervalPair` | src/cerebrax/monitor/resmon.py:21 | a truthy interval is both the sleep and the CPU sampling interval; `None` or 0 gives sleep 0 and no CPU interval |
| `ResMon.Dedup` | src/cerebrax/monitor/resmon.py:17 | the key order of the queue dictionary: the same aspects without repeats, the list itself when it has none |
| `ResMon.DedupKeepsFirstOccurrenceOrder` | src/cerebrax/monitor/resmon.py:17 | the keys are in the order of the aspects' first occurrences |
| `ResMon.ZipRecord` | src/cerebrax/monitor/resmon.py:78 | the dict comprehension over `zip(self.aspect, results)`; stated by `ZipRecordDistinct`, `RecordPairsEachAspectWithItsHead` and `ZipExample` |
| `ResMon.InitialQueues` | src/cerebrax/monitor/resmon.py:17 | one empty queue of capacity 128 per aspect |
| `ResMon.ZipRecordDistinct` | src/cerebrax/monitor/resmon.py:78 | with distinct keys and one value each, the zipped record maps every key to its own value |
| `ResMon.Heads` | src/cerebrax/monitor/resmon.py:72-75 | the gathered `get`s give each queue's head, in queue order |
| `ResMon.PopHeads` | src/cerebrax/monitor/resmon.py:73 | every non-empty queue loses exactly its head; empty queues are untouched |
| `ResMon.FirstUnproducible` | src/cerebrax/monitor/resmon.py:88-90 | the index of the first aspect without a `put_<aspect>` producer |
| `ResMon.ResourceChangesMonitor.constructor` | src/cerebrax/monitor/resmon.py:15-26 | a falsy aspect falls back to the resource types; one queue per aspect, `len(aspect)+2` workers, both exit flags set, no tasks |
| `ResMon.ResourceChangesMonitor.Start` | src/cerebrax/monitor/resmon.py:83-90 | acts only with both flags set: the consumer task, then one producer per aspect up to the first without a producer (`AttributeError`); a non-coroutine consumer is `TypeError` |
| `ResMon.ResourceChangesMonitor.Stop` | src/cerebrax/monitor/resmon.py:92-97 | acts only with both flags clear: raises the producer flag, awaits the producers, then the consumer flag and the consumer; the producer set is never emptied |
| `ResMon.ResourceChangesMonitor.ProducerStep` | src/cerebrax/monitor/resmon.py:28-65 | a producer round does nothing after the exit flag, waits on a full queue, and otherwise appends its snapshot to its own queue only |
| `ResMon.ResourceChangesMonitor.NextRecord` | src/cerebrax/monitor/resmon.py:67-81 | an ended generator, or one that sees the exit flag, yields nothing and leaves the queues; otherwise every queue gives up its head, and the round times out if some queue was empty or yields the heads zipped with the aspects; the generator has ended exactly when the round yielded no record |
| `ResMon.RecordPairsEachAspectWithItsHead` | src/cerebrax/monitor/resmon.py:72-78 | with distinct aspects, every record has exactly the aspects as keys, each paired with its own queue's head |
| `ResMon.RepeatedAspectLosesAKind` | src/cerebrax/monitor/resmon.py:17-78 | with a repeated aspect the zip misaligns: for `cpu, cpu, memory`, "cpu" gets the memory snapshot and "memory" is missing |
| `ResMon.RestartAccumulatesProducers` | src/cerebrax/monitor/resmon.py:83-97 | with every aspect producible, start, a second start, stop and start again all succeed, and the producer set then holds both generations of producers |
| `ResMon.TimeoutEndsStream` | src/cerebrax/monitor/resmon.py:67-81 | after a timed-out round, a snapshot that then arrives is never yielded; the next round ends the stream |
| `ResMon.RestartRenewsStream` | src/cerebrax/monitor/resmon.py:83-97 | after an ended stream, `stop` then `start` hands the consumer a new generator |
| `ConfigWatch.KeyPath` | src/cerebrax/monitor/config.py:67 | the watched path is the directory, one slash, then the file name |
| `ConfigWatch.ConfigFileEventHandler.constructor` | src/cerebrax/monitor/config.py:12-20 | a handler starts with its key path and queue and its exit flag set |
| `ConfigWatch.ConfigFileEventHandler.PutNewItem` | src/cerebrax/monitor/config.py:35-41 | the item ends up last, a bounded queue stays within its bound, and a queue with room simply gains the item |
| `ConfigWatch.ConfigFileEventHandler.OnModified` | src/cerebrax/monitor/config.py:22-33 | only a file event on exactly the key path is enqueued (latest-value); every other event leaves the queue alone |
| `ConfigWatch.ConfigFileEventHandler.GetNewItem` | src/cerebrax/monitor/config.py:43-45 | the oldest item leaves the queue and is returned; an empty queue gives nothing and is unchanged (the call would block) |
| `ConfigWatch.ConfigFileEventHandler.BeginEventFlow` | src/cerebrax/monitor/config.py:48-49 | entering the stream clears the exit flag |
| `ConfigWatch.ConfigFileEventHandler.EventFlowNext` | src/cerebrax/monitor/config.py:50-54 | a stream turn ends once the exit flag is set, and otherwise yields the oldest item |
| `ConfigWatch.GuardedConfigMonitor.constructor` | src/cerebrax/monitor/config.py:57-77 | the handler watches `path/name` through an empty queue of capacity one; no observer started, no task |
| `ConfigWatch.GuardedConfigMonitor.Start` | src/cerebrax/monitor/config.py:79-90 | acts only when the exit flag is set: schedules the handler and starts the observer and the reload task; restarting a used observer is `RuntimeError` |
| `ConfigWatch.GuardedConfigMonitor.Stop` | src/cerebrax/monitor/config.py:92-103 | acts only when the exit flag is clear: sets it, waits for the task (a timeout cancels it; no task is `TypeError`), then joins a live observer |
| `ConfigWatch.LatestEventWins` | src/cerebrax/monitor/config.py:22-41 | after any sequence of relevant events, the monitor's queue holds exactly the latest path |
| `ConfigWatch.StartStopRestart` | src/cerebrax/monitor/config.py:79-103 | after start, start, stop, stop, a further start fails with `RuntimeError` because the joined observer cannot start again; only the first and last starts scheduled the handler |
| `CfgMonitor.UnguardedConfigMonitor.constructor` | src/cerebrax/app/cfg_monitor.py:56-75 | as the guarded monitor: key path, queue of one, nothing started |
| `CfgMonitor.UnguardedConfigMonitor.Start` | src/cerebrax/app/cfg_monitor.py:77-86 | no guard: every call schedules the handler again; only the first starts the observer and a task, later ones raise `RuntimeError` |
| `CfgMonitor.UnguardedConfigMonitor.Stop` | src/cerebrax/app/cfg_monitor.py:88-98 | no guard: always sets the exit flag, waits for the task (no task is `TypeError`, a timeout cancels it), then joins a live observer |
| `CfgMonitor.ModifiedThenRead` | src/cerebrax/app/cfg_monitor.py:22-45 | a relevant event is read back by the next `get_new_item`, an irrelevant one is not, and the queue is empty again afterwards |
| `CfgMonitor.EventFloeEndsAfterStop` | src/cerebrax/app/cfg_monitor.py:47-53 | the stream ends at the first turn after `stop` |
| `CfgMonitor.UnguardedCalls` | src/cerebrax/app/cfg_monitor.py:77-98 | stopping before a start raises `TypeError`, and a second start fails with `RuntimeError` while scheduling the handler again |
| `ProxyTypes.Tokenize` | src/cerebrax/tools/type_and_module.py:34-35 | a string command is split; a token list is taken as it is |
| `ProxySettings.Replacement` | src/cerebrax/tools/type_and_module.py:41-45 | the replacement front end is always a front end other than `mitmproxy`: the fallback when it qualifies, else `mitmdump` |
| `ProxySettings.CorrectPattern` | src/cerebrax/tools/type_and_module.py:31-46 | `IndexError` iff no tokens, a validation error iff the first token is no front end; on success only the first token may change, to a replacement exactly for a non-tty adapting `mitmproxy` |
| `ProxySettings.CorrectPatternIdempotent` | src/cerebrax/tools/type_and_module.py:31-46 | validating an already validated command returns it unchanged |
| `ProxySettings.NoInteractiveFrontEndWithoutTty` | src/cerebrax/tools/type_and_module.py:39-45 | without a terminal, an adapting configuration never keeps `mitmproxy` |
| `ProxySettings.DefaultCommandValid` | src/cerebrax/tools/type_and_module.py:20-28 | the default command `["mitmdump"]` validates to itself |
| `AppModels.CorrectStartupCommand` | src/cerebrax/_models.py:27-39 | errors as above, plus `KeyError` iff a non-tty `mitmproxy` finds no `adapt_pattern`; only a true flag rewrites it to `mitmdump` |
| `AppModels.NonInteractiveMitmproxyRefused` | src/cerebrax/_models.py:24-39 | the model has no `adapt_pattern` field, so a non-tty `mitmproxy` is always refused and no command is ever rewritten |
| `AppModels.DefaultStartupCommandValid` | src/cerebrax/_models.py:25 | the default startup command validates to itself |
| `Certificate.AsciiLower` | src/cerebrax/proxy/certificate.py:39 | lower-casing keeps the length and maps exactly the upper-case letters to lower case |
| `Certificate.AfterLastSlash` | src/cerebrax/proxy/certificate.py:56-57 | the result is the slash-free suffix after the last slash (the whole text when there is none) |
| `Certificate.AfterLastSlashOf` | src/cerebrax/proxy/certificate.py:56-57 | a URL ending in a slash-free segment yields exactly that segment |
| `Wrappers.OrElse` | src/cerebrax/proxy/certificate.py:38 | Python's `x or y` on an optional string: a present, non-empty `x` wins, else `y`; the platform is `platform or pf.system()` |
| `Certificate.FileName` | src/cerebrax/proxy/certificate.py:55-58 | `mitmproxy-ca-cert-<platform>.<last URL segment>`; the segment is characterised by `AfterLastSlash` |
| `Certificate.Unsupported` | src/cerebrax/proxy/certificate.py:39 | the platform check: a non-empty name whose lower case is not a table key |
| `Certificate.SelectFor` | src/cerebrax/proxy/certificate.py:46-58 | no save directory is `TypeError`, an unknown lower-cased platform `KeyError`; otherwise the table URL (for the per-format entry `p12` only when asked, else `pem`) and a file name built from platform and last URL segment |
| `Certificate.SelectCertificate` | src/cerebrax/proxy/certificate.py:38-58 | `ValueError` exactly for a non-empty platform whose lower case is not in the table; otherwise the selection for the platform, renamed from "Darwin" to "macOS" |
| `Certificate.DarwinRefused` | src/cerebrax/proxy/certificate.py:38-45 | as written, a host whose system name is "Darwin" is refused before the rename |
| `Certificate.SelectCertificateFixed` | src/cerebrax/proxy/certificate.py:38-45 | with the rename moved first, every platform other than "Darwin" gets what the written code gives |
| `Certificate.DarwinGetsMacosCertificate` | src/cerebrax/proxy/certificate.py:44-58 | with the rename first, a "Darwin" host gets the macOS pem certificate as `mitmproxy-ca-cert-macos.pem` |
| `Certificate.AndroidGetsCer` | src/cerebrax/proxy/certificate.py:20-31 | android gets `http://mitm.it/cert/cer`, saved as `mitmproxy-ca-cert-android.cer` |
| `Certificate.WindowsIsCaseFolded` | src/cerebrax/proxy/certificate.py:39-49 | "Windows" is accepted through case folding and gets the p12 certificate |
| `Certificate.EmptyPlatformKeyError` | src/cerebrax/proxy/certificate.py:38-49 | an empty platform on a host with an empty system name passes the check and fails at the lookup with `KeyError` |
| `FileMonitor.ValidateName` | src/cerebrax/tools/file_monitor.py:26-31 | refuses exactly the name "MyHandler"; every other name passes unchanged |
| `FileMonitor.ValidateBaseClass` | src/cerebrax/tools/file_monitor.py:33-38 | accepts exactly the watchdog handler class names |
| `FileMonitor.CheckAttribute` | src/cerebrax/tools/file_monitor.py:45-57 | an attribute fails only when it is a callable under a callback name that is not a plain function with two usable leading parameters |
| `FileMonitor.ValidateAttr` | src/cerebrax/tools/file_monitor.py:40-58 | `None` becomes the empty table; a table passes, unchanged, exactly when every callback-named callable has the callback shape |
| `FileMonitor.MakeBuildArguments` | src/cerebrax/tools/file_monitor.py:21-58 | the arguments are built iff all three validators pass, holding the validated values |
| `FileMonitor.MalformedCallbacksRefused` | src/cerebrax/tools/file_monitor.py:48-57 | a coroutine, non-function or under-two-parameter callback is refused |
| `FileMonitor.UncheckedAttributesPass` | src/cerebrax/tools/file_monitor.py:45-47 | non-callables, and callables under other names, pass unchecked |
| `FileMonitor.FileMonitoringHandler.constructor` | src/cerebrax/tools/file_monitor.py:62-64 | a new registry has no handlers and no observers |
| `FileMonitor.FileMonitoringHandler.NewObserver` | src/cerebrax/tools/file_monitor.py:72-75 | a new observer is stored under the name, replacing any earlier one; handlers are untouched |
| `FileMonitor.FileMonitoringHandler.BuildHandler` | src/cerebrax/tools/file_monitor.py:77-100 | refused arguments change nothing; otherwise the built class is stored under its name, replacing any earlier one |
| `RequestParse.GetItems` | src/cerebrax/request/_parse.py:40-44 | the three sections, or `KeyError` exactly when one is missing |
| `RequestParse.ParsePlaywright` | src/cerebrax/request/_parse.py:52-55 | a parser is built iff all three sections are present; it keeps them unchanged and each id set is its section's key set |
| `RequestParse.ParseHttpx` | src/cerebrax/request/_parse.py:58-61 | the configuration is kept and the client ids are exactly its keys |
| `RequestParse.OtherSectionsIgnored` | src/cerebrax/request/_parse.py:40-44 | sections other than the three do not affect the parse |
| `RequestParse.ParsedIdsAreConfigured` | src/cerebrax/request/_parse.py:46-50 | an id is parsed exactly when its section configures it |
| `RequestClients.PlaywrightClient.constructor` | src/other/request/client.py:6-15 | a new client has no Playwright, no parser, and empty maps and lookups |
| `RequestClients.PlaywrightClient.CreateAsyncPlaywright` | src/other/request/client.py:45-52 | Playwright is started once and nothing else changes |
| `RequestClients.PlaywrightClient.Start` | src/other/request/client.py:105-114 | the browser lookup becomes the parsed browser ids, the page lookup the page ids, the context lookup is untouched, and `create_browser` fails with `AttributeError` |
| `RequestClients.PlaywrightClient.Stop` | src/other/request/client.py:116-132 | `AttributeError` with nothing changed when Playwright is not started; otherwise every map and lookup is emptied |
| `RequestClients.PlaywrightClient.AddBrowser` | src/other/request/client.py:134-139 | a known id is a no-op; a new id is listed first and its browser stored, or `AttributeError` without Playwright or for an unknown browser type |
| `RequestClients.PlaywrightClient.RemoveBrowser` | src/other/request/client.py:141-146 | a listed id is unlisted and its browser popped (`KeyError` if never stored); contexts and pages stay |
| `RequestClients.PlaywrightClient.AddContext` | src/other/request/client.py:148-153 | acts only for a new context under a listed browser; `KeyError` when that browser is not stored |
| `RequestClients.PlaywrightClient.RemoveContext` | src/other/request/client.py:155-160 | a listed id is unlisted and popped, `KeyError` if never stored; an unlisted id is a no-op |
| `RequestClients.PlaywrightClient.AddPage` | src/other/request/client.py:162-167 | acts only for a new page under a listed context; `KeyError` when that context is not stored |
| `RequestClients.PlaywrightClient.RemovePage` | src/other/request/client.py:169-174 | a listed id is unlisted and popped, `KeyError` if never stored; an unlisted id is a no-op |
| `RequestClients.RemovingBrowserKeepsDescendants` | src/other/request/client.py:141-146 | removing a browser leaves its context and page registered, still naming their parents |
| `RequestClients.ContextNeedsListedBrowser` | src/other/request/client.py:149 | a context under a never-listed browser is not added |
| `RequestClients.HttpxClient.constructor` | src/other/request/client.py:178-182 | a new client has no parser, no ids and no clients |
| `RequestClients.HttpxClient.Add` | src/other/request/client.py:192-196 | a new id is listed and its client stored; a known id is a no-op |
| `RequestClients.HttpxClient.Remove` | src/other/request/client.py:198-203 | a listed id is unlisted and popped, `KeyError` if not stored; an unlisted id is a no-op |
| `RequestClients.HttpxClient.Start` | src/other/request/client.py:210-214 | the lookup becomes the configured ids, and `create_async_client` fails with `AttributeError` before any client is made |
| `RequestClients.HttpxClient.Stop` | src/other/request/client.py:216-222 | every client is dropped but the lookup set is kept |
| `RequestClients.StopStrandsIds` | src/other/request/client.py:192-222 | after a stop an earlier id can neither be added again nor removed (`KeyError`) |
| `MemoryDatabase.DefaultId` | src/other/database/memory_database.py:23 | `redis_id or uuid4().hex`, that is `OrElse` of the id and the generated one |
| `MemoryDatabase.RedisHandler.constructor` | src/other/database/memory_database.py:7-24 | with `auto_connection`, exactly one synchronous connection, the default, under the given or generated id; otherwise none |
| `MemoryDatabase.RedisHandler.DefaultRedis` | src/other/database/memory_database.py:26-34 | the default id and connection exactly when a default connection exists |
| `MemoryDatabase.RedisHandler.ConnectionsLookup` | src/other/database/memory_database.py:44-47 | exactly the ids of the synchronous and the asynchronous connections |
| `MemoryDatabase.RedisHandler.NewSyncRedis` | src/other/database/memory_database.py:49-57 | succeeds iff the options validate (never for a URL), storing a new connection under the id; a refusal changes nothing |
| `MemoryDatabase.RedisHandler.NewAsyncRedis` | src/other/database/memory_database.py:59-67 | as the synchronous case, for the asynchronous map |
| `MemoryDatabase.RedisHandler.CloseSyncRedis` | src/other/database/memory_database.py:69-73 | the id leaves the synchronous map if present; nothing else changes |
| `MemoryDatabase.RedisHandler.CloseAsyncRedis` | src/other/database/memory_database.py:75-79 | the id leaves the asynchronous map if present; nothing else changes |
| `MemoryDatabase.RedisHandler.Clear` | src/other/database/memory_database.py:81-90 | `TypeError` with nothing cleared exactly when an asynchronous connection exists; otherwise both maps are emptied |
| `MemoryDatabase.MakeRedisHandler` | src/other/database/memory_database.py:19-24 | construction fails iff auto-connecting with an option dictionary that does not validate; then the default connection is the only one |
| `MemoryDatabase.NewThenClose` | src/other/database/memory_database.py:44-73 | opening and closing a new id restores the registry; the id is looked up only in between |
| `MemoryDatabase.ClearFailsWithAsyncConnection` | src/other/database/memory_database.py:84-87 | with one asynchronous connection `clear` raises and both connections remain |
| `ProxyProcess.ProxyHandler.constructor` | src/cerebrax/proxy/proxy_handler.py:5-8 | a new handle has no pid and is not running |
| `ProxyProcess.ProxyHandler.Start` | src/cerebrax/proxy/proxy_handler.py:18-23 | spawns and records the pid only when not running; a second start changes nothing |
| `ProxyProcess.ProxyHandler.Stop` | src/cerebrax/proxy/proxy_handler.py:25-30 | only with a truthy pid: signals it once and forgets it; otherwise nothing changes |
| `ProxyProcess.StartTwiceThenStop` | src/cerebrax/proxy/proxy_handler.py:18-30 | two starts spawn once and keep the first pid, which the stop signals |
| `ProxyProcess.ZeroPidNeverStops` | src/cerebrax/proxy/proxy_handler.py:26 | a process recorded with pid 0 is never signalled and stays running |

## Left out

Call-level gaps:

- `RequestClients.PlaywrightClient.Start`: starts from an already-parsed configuration. As written, client.py:106 fails first, because `PParser` is not imported there and has no `parse` method. The model states what the method does from line 107 on.
- `RequestClients.HttpxClient.Start`: the same gap at client.py:211 (`HParser`).
- `ThreadPool.ReusableThreadPool.Submits`: unordered results are stated only as a permutation of the results. Exceptions raised inside a running task are not modelled.
- `SystemMonitoring.SystemMonitor.StopProducers`: `gather` propagates the first failure while the sibling stops keep running. The state stated is the one after every sibling has run.
- `ResMon.ResourceChangesMonitor.NextRecord`: a round with an empty queue always times out. A snapshot arriving within the 10 s bound is not modelled.
- `ConfigWatch.ConfigFileEventHandler.OnModified`: the cross-thread hand-off and its 5 s timeout are collapsed into a direct put.
- `Certificate.AsciiLower`: `str.lower` is modelled on ASCII letters only.

Pipeline parts not modelled:

- The psutil collectors (`DataCollector`, monitor.py:38-95), the producer loops (`put_*_queue`) and the consumer generators (`create_*_consumer`, monitor.py:442-486). Tasks are handles only, so what a running task does is outside the model.
- Library objects are opaque values: ThreadPoolExecutor workers, watchdog observers and schedules, Playwright, httpx and Redis. Their launch and close calls are not modelled, and neither are errors raised by their constructors for bad keyword arguments.
- Event-loop checks in the constructors (`get_running_loop`, `loop.is_running()`), and the `loop` fields.
- Getters and properties that only return a field.

Outside this model:

- The certificate download and file write (certificate.py:59 on), and the directory creation at certificate.py:48. That coroutine is never awaited.
- `subprocess.Popen` failures and `os.kill` errors; the pid is a parameter.
- Module-level side effects: `asyncio.run(main())` and the test coroutine in resmon.py:99-124, and the sample dictionaries in _parse.py and client.py.
- The other parts of the repository.

Broken imports: `src/other/t.py` has no imports, `_models.py` imports a `Time` that `_types.py` does not define, `resmon.py` imports `ResourceTypes`, `CommonIterable`, `CollectionMethods` and `Interval`, which `_types.py` does not define either, and `proxy/certificate.py` imports `Platforms` and `OtherPlatformFormat` from `_types.py` and `httpx_proxy_client` from `internal.py`, none of which exist (`internal.py` defines `httpx_client`). Each module thus fails at import as written, so `install` is unreachable; the model of certificate.py:38-58 states what those lines would do. The model treats the t.py class as the same reusable pool as in monitor.py, treats times as reals, and gives the resource types to the constructor as a parameter.

Where the model simplifies:

- In-place aliasing is not captured: `v[0] = ...` in both `correct_pattern` validators mutates the caller's list; the client lookup sets are the parser's own sets, so `stop` clears the parser's too; the config queue is shared with its creator.
- Every `raise ValidationError(...)` is the single outcome `Validation`, whatever exception pydantic produces when it is constructed with one message string.
- Times are reals and are not compared with floating-point semantics.
- The 5 s and 10 s wait bounds are boolean parameters.

Where the repository's design description and the code disagree, the model follows the code:

- `SystemMonitor.start` has no "already running" guard, so a second start creates new tasks.
- `stop` stops the processors before the producers.
- A processor timeout ends `stop` before anything else is reclaimed.

## Findings

| source | as written | input that shows it | evidently intended | confidence | as-written member | corrected member |
|---|---|---|---|---|---|---|
| src/cerebrax/monitor/monitor.py:276-280 | the completeness loop `for k, v in dict(v).items()` rebinds `v`, so `_check_addons` returns the last field, `network`. pydantic then refuses it as neither an `Addon` nor an `Addons`. | `Options(unite_async_generator=False, addons=Addons(memory=f, swap=f, cpu=f, disk=f, network=f))` with `f` an `async def f(item)` | a complete `Addons` is accepted and bound unchanged | not executed | `MonitorOptions.PerKindOptionsNeverValidate` | `MonitorOptions.CheckAddons` |
| src/cerebrax/proxy/certificate.py:38-45 | the supported-platform check runs on the raw name, so the "Darwin" to "macOS" rename after it is never reached | `install()` with no platform, on a host where `platform.system()` is "Darwin" | "Darwin" is renamed first, and the host gets the macOS pem certificate | not executed | `Certificate.DarwinRefused` | `Certificate.DarwinGetsMacosCertificate` |
