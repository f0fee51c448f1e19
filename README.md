# nor-backend cluster core, modelled in Dafny

This project models three pieces of the nor-backend cluster support and proves what they promise.

- **Cluster start-up** (`src/cluster.js`):
  - `initConfig` normalises `config.cluster` in place into a `shared` port list and a `workers` port list;
  - `get_worker_array` and the allocation map in `start` give one port per worker slot;
  - the `is_argument` / `not_argument` / `and` predicates strip and pick `--debug` / `--debug-brk`;
  - `start_node` hands out debug ports `5859 + n` and pushes and pops the debug argument;
  - `start_http` serves the worker port first, then the shared ports;
  - the master run of `start` registers a Worker for each planned port and forks a node for it. It is modelled twice: as intended, one port after the other, and as written, where the registrations run side by side (see Findings).
- **Worker registry** (`src/workers.js`): `register`, `unregister`, `list` and `fetch`, with both argument dispatches, over an in-memory record store. The store is a sequence of records in storage (creation) order.
- **Request-log formatter** (`src/log-format-clusterdev.js`): `get_color`, the `[worker(id)#pid@host:port]` descriptor, the Content-Length suffix, the whole `clusterdev` line and `try_wrapper`.

Modules and files:

| file | module | what it holds |
|---|---|---|
| `wrappers.dfy` | `Wrappers` | `Option`, `Result` |
| `strings.dfy` | `Strings` | number-to-text, `parseInt(s, 10)`, `substr`, text truthiness |
| `cluster_config.dfy` | `ClusterConfig` | class `Config` with `InitConfig`; its closed form `Normalize` |
| `port_allocation.dfy` | `PortAllocation` | `WorkerArray` and `AllocatePorts` loops; closed form `PlannedPorts`; `PlanWorkerPorts` |
| `exec_argv.dfy` | `ExecArgv` | argument predicates, filter, debug flag |
| `supervisor.dfy` | `ProcessSupervisor` | class `Supervisor`: debug counter, `execArgv`, the log of forks |
| `http_ports.dfy` | `HttpPorts` | the port list of `start_http` |
| `workers.dfy` | `Workers` | record store queries, `RegisterInStore` / `UnregisterInStore`, class `Registry` |
| `cluster_start.dfy` | `ClusterStart` | the master's start loop as intended: register, then fork, one port after the other |
| `concurrent_start.dfy` | `ConcurrentStart` | the start loop as written: registrations on one snapshot, forks in resolution order |
| `log_format.dfy` | `LogFormat` | the formatter |

The code's own entities become classes where the code changes them in place:
- the configuration object (`config.cluster` is rewritten);
- the module state of `start_node` (`debug_ports`, `_cluster.settings.execArgv`, and a log of the forks made);
- the registry's store.

Most methods are proved against a function of their inputs and old state, and the properties are proved about those functions as lemmas. The start loop's methods, `ClusterStart.StartWorkers` and `ClusterStart.StartMaster`, are specified relationally instead: by what store searches return afterwards, and by the fork log.

Parameters stand in for:
- the store's fresh UUIDs;
- `OS.cpus().length`, `OS.hostname()` and `process.env`;
- `process.pid` and the cluster worker id;
- the formatted time, the elapsed milliseconds and the `bytes` formatter.

## Model

| member | source | states |
|---|---|---|
| Strings.IntToString | src/cluster.js:147 | the text of an integer is non-empty and made of digits and a minus sign |
| Strings.ParseIntToString | src/cluster.js:136 | `parseInt(s, 10)` reads back every integer that concatenation wrote out |
| Strings.Substr | src/cluster.js:90 | `substr(start, length)` is the slice clipped to the text, at most `length` long |
| ClusterConfig.Config.InitConfig | src/cluster.js:167-193 | the new `cluster` is the normal form of the old one: a falsy setting becomes null, anything else holds two port arrays |
| ClusterConfig.NormalizeShape | src/cluster.js:167-190 | null iff the setting was falsy; otherwise both lists are arrays and `size` is kept; `true` acts as `{}` |
| ClusterConfig.SharedRule | src/cluster.js:174-178 | `shared` is a copy of a given list, a scalar wrapped, else `config.port` copied or wrapped |
| ClusterConfig.WorkersRule | src/cluster.js:180-186 | `workers` is a copy or a wrap if given; else `[last(shared) + 1]`, or `[]` when `shared` is empty |
| ClusterConfig.NormalizeIdempotent | src/cluster.js:167-193 | normalising twice equals normalising once |
| PortAllocation.WorkerArray | src/cluster.js:201-207 | `get_worker_array(num)` is `[0, ..., num - 1]` (empty for `num <= 0`) |
| PortAllocation.AllocatePorts | src/cluster.js:243-257 | the shift-and-cursor loop gives exactly the closed form `PlannedPorts` of the slot count and the `workers` list |
| PortAllocation.PlannedPortsMeaning | src/cluster.js:243-257 | one port per slot; explicit entries front to back, then each port is the previous one + 1; fails iff a port must come from no cursor or from the cursor 0 |
| PortAllocation.ExtraWorkersIgnored | src/cluster.js:243-249 | entries beyond the slot count never change the result |
| PortAllocation.PlannedPortsIncreasing | src/cluster.js:243-257 | strictly increasing explicit entries give strictly increasing (distinct) ports |
| PortAllocation.SlotCount | src/cluster.js:240 | `config.cluster.size` when it is truthy, else the CPU count: a missing or zero size means one slot per CPU |
| PortAllocation.ControllerPorts | src/cluster.js:214-257 | not configured iff the normal form is null; no worker ports iff the `workers` list is empty; on success one port per slot, at least one, with the explicit entries first |
| PortAllocation.PlanWorkerPorts | src/cluster.js:214-257 | normalises the configuration in place and returns the controller's ports, or the first failed cluster assertion or `TypeError` (the `opts.pg` assertion is left out) |
| PortAllocation.OneExplicitPort | src/cluster.js:243-257 | workers `[3000]`, size 4 gives `3000, 3001, 3002, 3003` |
| PortAllocation.TwoExplicitPorts | src/cluster.js:243-257 | workers `[3000, 3010]`, size 3 gives `3000, 3010, 3011` |
| PortAllocation.NoPortsAtAll | src/cluster.js:218 | no worker ports and an empty base port list fail the `minLength(1)` assertion |
| PortAllocation.WorkersAfterBasePort | src/cluster.js:243-257 | with only `config.port = base`, the workers get `base + 1, ..., base + size` |
| ExecArgv.IsArgument | src/cluster.js:88-92 | `is_argument(a)(s)` iff `s == a` or `s` starts with `a + "="` |
| ExecArgv.NotArgument | src/cluster.js:94-99 | the exact negation of `is_argument(a)` |
| ExecArgv.And | src/cluster.js:101-105 | `and(a, b)` accepts exactly what both accept; at line 120 it accepts exactly the non-debug arguments, as `ExecArgv.ChildExecArgvMeaning` states |
| ExecArgv.Filter | src/cluster.js:120 | the filter keeps exactly the accepted elements |
| ExecArgv.Any | src/cluster.js:117-118 | `some(p)` iff some element satisfies `p` |
| ExecArgv.FilterAppend | src/cluster.js:120 | the filter distributes over concatenation, so it keeps the original order |
| ExecArgv.FilterKeepsAll | src/cluster.js:120 | a list whose elements are all accepted is unchanged |
| ExecArgv.DebugIsNotDebugBrk | src/cluster.js:88-92 | `--debug` does not match `--debug-brk` (either way) but matches `--debug=5859` |
| ExecArgv.DebugFlagChoice | src/cluster.js:117 | the flag is `--debug-brk` iff some argument is `--debug-brk` or `--debug-brk=...`, else `--debug` |
| ExecArgv.DebugPortsEnabledMeaning | src/cluster.js:118 | debug ports are on iff some argument is a `--debug` or `--debug-brk` argument |
| ExecArgv.ChildExecArgvMeaning | src/cluster.js:119-121 | the filter's predicate accepts exactly the non-debug arguments; the forks' `execArgv` holds no debug argument and every other argument, in order |
| ProcessSupervisor.PinnedPort | src/cluster.js:135-136 | a pinned port is the number given, or `parseInt` of the text (`NaN` iff no digits) |
| ProcessSupervisor.DebugArgumentRoundTrip | src/cluster.js:147 | the pushed `flag=port` is an argument of the flag and its value reads back as the port |
| ProcessSupervisor.WithDebugPort | src/cluster.js:138-154 | the env given gains `WORKER_DEBUG_PORT = port` and keeps every other key; a falsy argument becomes `{WORKER_DEBUG_PORT: port}`; `start_node()` forks with no env |
| ProcessSupervisor.Supervisor.constructor | src/cluster.js:113-122 | the master's flag, the enabled bit, the filtered `execArgv`, counter 0 |
| ProcessSupervisor.Supervisor.StartNode | src/cluster.js:125-158 | one fork is appended and `execArgv` is unchanged afterwards; debug off: the argument is passed as it came and nothing else changes; pinned: the counter is unchanged; unpinned: the port `5859 + counter` is used and the counter increments |
| HttpPorts.SharedPorts | src/cluster.js:46-50 | a list kept, a scalar wrapped, an omitted argument `[]` |
| HttpPorts.ServedPorts | src/cluster.js:54-56 | one port more than the shared list: the primary port first, then the shared ports in order |
| HttpPorts.HttpSettings | src/cluster.js:58-61 | the settings hold the worker port, the port list and the shared ports |
| HttpPorts.WorkerPortEnv | src/cluster.js:42-44 | a set `WORKER_PORT` is kept; otherwise it becomes the port's text, which reads back as the port |
| HttpPorts.WorkerServesSharedPorts | src/cluster.js:234 | a worker serves its own port, then the normalised shared ports, which are `config.port` when none were configured |
| Workers.Search | src/workers.js:36 | a search returns exactly the matching records, no more than the store holds |
| Workers.ClearOwnedMeaning | src/workers.js:74-96 | deleting the found Sockets and Timers deletes exactly what the owner owns |
| Workers.DropDuplicatesMeaning | src/workers.js:39-50 | deleting the found Workers after the first deletes exactly the other Workers at the address |
| Workers.RegisterInStore | src/workers.js:36-104 | the store grows by at most one record; the Worker returned is a Worker record, either already in the store or carrying the fresh id |
| Workers.ReconciledStore | src/workers.js:36-69 | after deduplication or creation the kept Worker is the only one at the address; ids stay unique; unrelated records are unchanged |
| Workers.RegisterKeepsOneWorker | src/workers.js:36-50 | after `register` exactly one Worker has the address, and it is the one returned |
| Workers.RegisterReusesFirst | src/workers.js:54-69 | the first Worker found is kept; only when none exists is one created, carrying the hostname and port |
| Workers.RegisterClearsOwned | src/workers.js:71-97 | afterwards no Socket or Timer is owned by the returned id, reused or created |
| Workers.RegisterTouchesNothingElse | src/workers.js:36-104 | every record that is neither a Worker at the address nor owned by the returned id is unchanged, in order |
| Workers.RegisterTwice | src/workers.js:36-104 | registering the same address twice returns the same record and changes nothing |
| Workers.RegisterAddsOnlyKept | src/workers.js:54-69 | the only record that may be new is the returned Worker |
| Workers.OtherAddressUnchanged | src/workers.js:36-104 | Workers at any other address are unchanged |
| Workers.RegisterInput | src/workers.js:21-31 | two arguments give their address; a single object with truthy `hostname` and `port` gives its own; a `TypeError` iff neither |
| Workers.ObjectFormRegistersWrongAddress | src/workers.js:61-63 | as written, `register({hostname, port})` creates a Worker at another address, so a second call creates another Worker |
| Workers.UnregisterSelector | src/workers.js:109-124 | selector priority: two arguments, then `$id`, then `hostname`/`port`, then a UUID text; a `TypeError` iff none applies |
| Workers.FindWorker | src/workers.js:128-129 | `searchSingle` returns a matching Worker of the store, or nothing iff no record matches |
| Workers.UnregisterInStore | src/workers.js:128-133 | unregistering adds no record and removes the Worker found |
| Workers.UnregisterMeaning | src/workers.js:128-133 | no match leaves the store unchanged; otherwise exactly the found Worker is removed |
| Workers.UnregisterSingle | src/workers.js:128-133 | unregistering the one Worker at an address leaves none there; a second unregister is a no-op |
| Workers.RegisterThenUnregister | src/workers.js:128-133 | register then unregister of an address leaves no Worker there; unregistering again is a no-op |
| Workers.Registry.constructor | src/workers.js:11-15 | the registry starts over a store whose ids are unique |
| Workers.Registry.Delete | src/workers.js:47 | `db.del(d)` removes the record with `d`'s id and keeps the ids unique |
| Workers.Registry.DeleteAll | src/workers.js:45-49 | deleting records one by one removes exactly the records with their ids |
| Workers.Registry.Register | src/workers.js:19-105 | bad arguments throw and change nothing; otherwise the new store and the returned Worker are those of `RegisterInStore` |
| Workers.Registry.Unregister | src/workers.js:108-134 | bad arguments throw and change nothing; otherwise the store becomes `UnregisterInStore` of the selector |
| Workers.Registry.List | src/workers.js:137-143 | the list holds exactly the Worker records |
| Workers.Registry.Fetch | src/workers.js:149-160 | a non-UUID fails the assertion; otherwise the Worker with that id, or nothing iff there is none |
| LogFormat.GetColor | src/log-format-clusterdev.js:8-13 | 31 iff status >= 500, 33 iff 400-499, 36 iff 300-399, 32 otherwise |
| LogFormat.WorkerPart | src/log-format-clusterdev.js:29-33 | `worker(` + the id's decimal text + `)` iff a worker id is given, empty otherwise |
| LogFormat.PidPart | src/log-format-clusterdev.js:35-37 | `#<pid>` iff the pid is truthy |
| LogFormat.AddressPart | src/log-format-clusterdev.js:39-44 | starts with `@` iff `WORKER_PORT` is truthy, empty otherwise |
| LogFormat.DescriptorLayout | src/log-format-clusterdev.js:27-46 | where the three parts sit between `[` and `]` |
| LogFormat.ClusterDescriptor | src/log-format-clusterdev.js:27-46 | starts with `[`, ends with `]`; names a worker iff one is given; holds `@` iff `WORKER_PORT` is truthy; is `[]` iff all three parts are absent |
| LogFormat.ClusterDescriptorOrder | src/log-format-clusterdev.js:27-46 | the parts come in order: `[worker(id)` first, then `#pid`, and `@host:port]` at the end |
| LogFormat.LengthSuffix | src/log-format-clusterdev.js:18-25 | empty iff Content-Length is missing or not a number, else `" - " + bytes(len)` |
| LogFormat.LengthSuffixOfNumber | src/log-format-clusterdev.js:18-25 | a decimal Content-Length gives the suffix of its own value |
| LogFormat.RemoteAddress | src/log-format-clusterdev.js:21 | a non-empty `x-forwarded-for` wins, else `connection.remoteAddress`; the `TypeError`s of a missing `headers` or `connection` |
| LogFormat.RequestIdCell | src/log-format-clusterdev.js:52 | `[id] ` iff `req.id` is truthy |
| LogFormat.Clusterdev | src/log-format-clusterdev.js:16-60 | fails iff the remote address does; the line starts with the time, the descriptor, the address and the id cell, and ends with `ms`, the suffix and the reset code |
| LogFormat.TryWrapper | src/log-format-clusterdev.js:63-69 | never fails: the line, or `undefined` iff formatting threw |
| ClusterStart.ResolveHostname | src/cluster.js:221 | the first truthy of the configured, environment and OS hostnames, else `localhost` |
| ClusterStart.WorkerEnv | src/cluster.js:273-277 | the fork env of a worker holds no pinned debug port |
| ClusterStart.WorkerDebugPortsIncrease | src/cluster.js:138-139 | successive workers get the debug ports `5859 + counter + i`, strictly increasing |
| ClusterStart.RegistryStep | src/cluster.js:267-271 | registering the next port keeps every earlier port's single Worker and the unused ids fresh |
| ClusterStart.ForksFollowStep | src/cluster.js:273-277 | the fork log grows by the next worker's fork |
| ClusterStart.FrameStep | src/cluster.js:270 | a registration leaves alone every record that is neither a Worker at a port done so far nor owned by a Worker registered so far |
| ClusterStart.OwnedStep | src/cluster.js:270 | after a registration neither the new Worker nor an earlier one owns a Socket or a Timer |
| ClusterStart.CleanupStep | src/cluster.js:270 | one registration keeps both facts for the ports done so far |
| ClusterStart.RegisterNext | src/cluster.js:270 | one registration with the loop's facts: one Worker per port so far, none of them owning anything, the other records untouched, ids still fresh |
| ClusterStart.ForkNext | src/cluster.js:273-277 | one fork with the worker's hostname, port and UUID, appended to the log |
| ClusterStart.StartWorkers | src/cluster.js:267-288 | returns the Workers: Worker `i` is the only one at port `i` and owns no Socket or Timer; every record that is neither at a planned port nor owned by a returned Worker is unchanged; fork `i` carries port `i`, Worker `i`'s id and debug port `counter + i`; `execArgv` is unchanged |
| ClusterStart.StartMaster | src/cluster.js:212-290 | normalises the configuration and resolves the hostname; returns the planned ports or the start-up error; the registry stays valid and `execArgv` unchanged; on error nothing is registered or forked and no debug port is used; otherwise the Workers, forks and debug ports of `StartWorkers` for the planned ports |
| ConcurrentStart.RegisterWrites | src/workers.js:36-104 | one `register` transaction keeps the Worker `register` keeps, and creates a record iff it found none |
| ConcurrentStart.Commit | src/workers.js:99-100 | the committed store holds the records not deleted and the created one |
| ConcurrentStart.SingleRegistrationWrites | src/workers.js:36-104 | a transaction alone on the store commits exactly the store and Worker of `RegisterInStore` |
| ConcurrentStart.SamePortTwiceRegistersTwoWorkers | src/cluster.js:267-270 | as written, workers `[3000, 3000]` with size 2, both registrations reading the empty store, leave two Workers at one address |
| ConcurrentStart.StartNodesAsResolved | src/cluster.js:270-277 | as written, fork `k` and debug port `counter + k` go to the port whose registration resolved `k`th |
| ConcurrentStart.SecondPortResolvedFirst | src/cluster.js:270-277 | as written, when the second port resolves first it gets debug port `5859 + counter`, where the sequential start gives it `5859 + counter + 1` |

## Left out

- The `cluster.fork` / `setupMaster` calls are not run: they are process lifecycle. A fork is recorded as its environment and `execArgv` in `Supervisor.forks`.
- `ProcessSupervisor.WithDebugPort`: src/cluster.js:143 writes `WORKER_DEBUG_PORT` into the caller's environment object in place, so the caller sees it afterwards. The model builds a new map and does not capture that update or its aliasing.
- The `online`, `error` and `exit` events, `defer` and the unregister on worker exit (src/cluster.js:126-130, 160-163, 263-265, 279-284) are left out: they are asynchronous event ordering.
- `HTTP.createServer` / `listen` and the listen chain (src/cluster.js:25-37, 63-84) are left out: they are network I/O. Only the port list and the settings are modelled.
- The worker branch of `start` (src/cluster.js:231-236) is not modelled as a whole: it parses `WORKER_PORT` and calls `start_http`. Only `start_http`'s port list and `WORKER_PORT` default are modelled, with `HttpPorts.WorkerServesSharedPorts` tying the list to the normalised setting.
- The `parseInt` of each `workers` entry (src/cluster.js:225-227) is not modelled, and neither is `NaN` as a port: ports are integers.
- `ClusterConfig.Normalize`, `ClusterConfig.Config.InitConfig`, `PortAllocation.ControllerPorts`, `PortAllocation.PlanWorkerPorts`: `config.port` is taken to be set; its type is `ClusterConfig.BasePort`. An unset `config.port` would give ports `undefined` and `NaN`, which the integer model cannot hold.
- Truthy non-object values of `config.cluster` (a number or a string) are not modelled. The model has falsy, `true` and an object.
- Scalar port settings that are strings are not modelled.
- NoPg is replaced by an in-memory sequence of records. A transaction is modelled only in `ConcurrentStart`, as the writes it decides on the store it read; the database's isolation and locking are not modelled.
- The store's UUIDs are a parameter that must be fresh.
- `Workers.Registry.constructor`: the `debug.assert(opts.pg).is('string')` of src/workers.js:13-15 is not modelled; the registry is built over a store. So `PortAllocation.PlanWorkerPorts` and `ClusterStart.StartMaster` plan ports for a configuration without a `pg` string, where src/cluster.js:223 throws before any port is allocated.
- `searchSingle` with several matches is taken to return the first.
- The deletes of src/workers.js:45-49 and 92-96 are step-function chains and run in sequence, as modelled. The start loop of src/cluster.js:267-288 is not: its two models and the schedules left out are described under Findings.
- That the promise of `start` resolves before its registrations and forks finish (src/cluster.js:288) is not modelled: it is promise timing.
- `ConcurrentStart`: models one schedule of the concurrent registrations, where every one reads the store before any commits. Other interleavings are not modelled.
- The `debug.assert`s on fetched records (src/workers.js:66, 84, 140, 156-157) always hold in the model and are left out.
- `OS.cpus()`, `OS.hostname()`, `process.env`, `process.pid`, the cluster worker id, `Date` / `toISOString`, the elapsed milliseconds and the `bytes` formatter are parameters.
- The `CLUSTER.apps` / `CLUSTER.https` lists are left out: they are push-only globals.
- Logging (`debug.info`, `debug.error`) is left out.
- `Workers.Registry.List`: states which records are listed, not that they come in storage order. The body is the storage-order search.
- `ClusterStart.StartWorkers`: states the debug ports of the forks through `WorkerFork`. It does not model the `online` wait between forks.

## Findings

| source | as written | input that shows it | evidently intended | confidence | as-written member | corrected member |
|---|---|---|---|---|---|---|
| src/workers.js:61-63 | a Worker created by `register({hostname, port})` gets the outer variables: the argument object as `hostname`, `undefined` as `port` | `register({hostname: "node1", port: 3000})` on a store with no Worker at `node1:3000`, called twice | the created Worker carries `input.hostname` and `input.port`, so the second call reuses the first Worker, as `Workers.RegisterTwice` proves | not executed; high, since the search is by `input` and the created record cannot match it | Workers.ObjectFormRegistersWrongAddress | Workers.Registry.Register |
| src/cluster.js:267-288 | `map` calls `register` for every port at once and `reduce($Q.when, $Q())` gets promises, not steps, so the registrations run side by side and `start` resolves without waiting for them | `{cluster: {workers: [3000, 3000], size: 2}}` on an empty store, both registrations reading it before either commits | one registration after the other, as the step chains of src/cluster.js:67-75 and src/workers.js:45-49 do, so one Worker per address | not executed; medium, since whether both reads precede both commits depends on scheduling and the database's isolation | ConcurrentStart.SamePortTwiceRegistersTwoWorkers | ClusterStart.StartWorkers |
| src/cluster.js:270-277 | `start_node` runs when each registration resolves, so the debug ports `5859 + n` go out in resolution order, not port order | debugging on, two ports, the second registration resolving first | the `i`th port forked `i`th with debug port `5859 + counter + i` | not executed; medium, since the resolution order depends on scheduling | ConcurrentStart.StartNodesAsResolved | ClusterStart.StartWorkers |
