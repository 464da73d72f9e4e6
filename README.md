# procman in Dafny

A model of the core of procman. procman is a small distributed process supervisor:

- A **deputy** runs on each host. It starts, stops, restarts and samples local OS processes through a `ProcessManager`.
- A **sheriff** keeps a registry of deputies and a mirror of the processes they run. It drives the deputies over HTTP.

The model covers three parts:

- the process record (`ProcessInfo`) and its dictionary form;
- the per-host process table;
- the coordinator.

The operating system, the clock and every HTTP exchange are inputs to the model. Each operation of the coordinator returns the requests it would send, so "nothing is sent" and "the request goes to the owning deputy" can be stated and proved.

| file | module | models |
|---|---|---|
| `wrappers.dfy` | `Wrappers` | `Option` and `Result` |
| `dicts.dfy` | `Dicts` | Python's insertion-ordered `dict`: assigning to an existing key keeps its position, a new key goes last |
| `records.dfy` | `Records` | `procman/common/process_info.py` |
| `supervisor.dfy` | `Supervisor` | `procman/common/process_manager.py` |
| `coordinator.dfy` | `Coordinator` | `procman/sheriff/sheriff.py` |

`Supervisor` and `Coordinator` work in two layers:

- Each operation that changes state is first a function over values. `Supervisor.Start` acts on a `Table`, the pair of dictionaries. `Coordinator.Launch` acts on the registry and the mirror.
- The classes `Supervisor.ProcessManager` and `Coordinator.Sheriff` then update their fields in place. Each such method is proved to leave exactly the state that its function computes.
- The properties of the system are proved about the functions. They therefore hold for the methods too.
- Operations that change no state are specified directly by their own `ensures`: `Supervisor.ProcessManager.GetProcessInfo` and `GetAllProcesses`, and `Coordinator.Sheriff.StopProcess`, `RestartProcess`, `GetProcessInfo` and `GetDeputyStatus`.

What the OS would report is passed in as an oracle value:

- whether `poll()` reports a live handle;
- whether `Popen` returns a pid or raises, and with which message;
- how the SIGTERM, 5-second wait and SIGKILL sequence ends;
- whether `psutil` still finds the pid;
- `time.time()`.

A few behaviours of the code that are easy to miss, and that the model keeps:

- `update_process_stats` marks a vanished process `"died"` and keeps its `start_time` (`process_manager.py:83-87`).
- `add_deputy` reads the health reply with `["hostname"]` (`sheriff.py:29`). A 200 reply without a hostname raises `KeyError`, which escapes `add_deputy`. `load_config` catches it (`sheriff.py:202-203`), logs it and stops loading.
- `get_deputy_status` reports a connection error as `"unreachable (<message>)"` (`sheriff.py:168`).
- `ProcessManager.get_process_info` is a plain lookup (`process_manager.py:89-91`). It does not re-sample the OS.

## Model

| member | source | states |
|---|---|---|
| Dicts.Dict.Get | procman/common/process_manager.py:89-91 | `dict.get`: returns a value exactly when the key is present, and that value is the stored one |
| Dicts.Dict.Put | procman/common/process_manager.py:36-37 | `d[k] = v`: the map gains or overwrites `k`; an existing key keeps its position, a new key is appended; keys stay distinct |
| Dicts.Dict.Remove | procman/sheriff/sheriff.py:42 | `del d[k]`: `k` leaves the map and the key order, and the other entries keep their values and relative order |
| Dicts.Dict.Where | procman/sheriff/sheriff.py:44-47 | a dict comprehension with a filter: exactly the entries whose value passes remain, unchanged, in their original order |
| Dicts.PutAllUntouched | procman/sheriff/sheriff.py:30 | writing a sequence of entries leaves a key that no entry writes as it was |
| Dicts.PutAllLast | procman/sheriff/sheriff.py:30 | after writing a sequence of entries, a written key holds the value of the last entry writing it |
| Dicts.Dict.Items | procman/sheriff/sheriff.py:160 | `list(d.items())`: one `(key, value)` pair per key, in key order, each with the stored value |
| Dicts.Dict.Values | procman/common/process_manager.py:95 | `list(d.values())`: one value per key, in key order |
| Records.NewProcessInfoDefaults | procman/common/process_info.py:9-18 | a record built from name, command and working directory has the declared defaults: not autostart, no pid, 0.0 usage, `"stopped"`, no start time, host `"localhost"` |
| Records.ToDict | procman/common/process_info.py:20-34 | `to_dict(now)`; its properties are stated by `ToDictKeys` (exactly the ten fields plus `uptime`) and `RoundTrip` (`from_dict` gives the record back) |
| Records.ToDictKeys | procman/common/process_info.py:20-34 | the dictionary holds exactly the ten fields plus `uptime`, and `uptime` is the integer 0 when there is no start time |
| Records.RequiredStr | procman/common/process_info.py:40-42 | `data[k]` succeeds only for a present string entry and carries it; otherwise it fails, naming the key as missing or ill-typed |
| Records.FromDict | procman/common/process_info.py:36-50 | a missing `name` is reported before anything else; a success had all three required keys as strings and carries them |
| Records.FromDictErrors | procman/common/process_info.py:36-50 | only a required key can be reported missing, and only when it is absent; only a present field key can be reported ill-typed |
| Records.FromDictDefaults | procman/common/process_info.py:36-50 | after a successful decode, every absent optional key has taken its dataclass default, and present `autostart`, `status` and `host` entries are carried |
| Records.RoundTrip | procman/common/process_info.py:20-50 | decoding the encoded record gives the same record back, at any clock reading; the derived `uptime` entry is ignored |
| Records.FromDictReadsOnlyFields | procman/common/process_info.py:36-50 | two dictionaries that agree on the ten field keys decode identically |
| Records.FromDictIgnoresExtraKey | procman/common/process_info.py:36-50 | adding or changing a key outside the ten fields (such as `uptime`) does not change the decoding |
| Records.FromDictMinimal | procman/common/process_info.py:36-50 | a dictionary with only the three required string keys decodes to the record with every default |
| Supervisor.Split | procman/common/process_manager.py:25 | `command.split()` yields only non-empty tokens without whitespace |
| Supervisor.SplitKeepsOrder | procman/common/process_manager.py:25 | the tokens, laid end to end, are exactly the command's non-whitespace characters in order |
| Supervisor.SplitWord | procman/common/process_manager.py:25 | a non-empty whitespace-free command splits into itself alone |
| Supervisor.SplitAtSpace | procman/common/process_manager.py:25 | `split()` cuts only at whitespace: splitting around a whitespace character splits each side on its own and concatenates the results |
| Supervisor.SplitJoin | procman/common/process_manager.py:25 | splitting non-empty, whitespace-free words joined by single spaces gives the words back |
| Supervisor.Start | procman/common/process_manager.py:18-42 | a start is rejected with no change while the name's handle is live; otherwise it succeeds iff the spawn succeeds; success writes pid, `"running"` and start time into the record and stores the record and a handle with `command.split()` and the working directory under the name; a spawn error writes `"error: <message>"` into the caller's record and leaves the table unchanged; the table stays well formed and running records keep a pid |
| Supervisor.Stop | procman/common/process_manager.py:44-64 | succeeds iff a handle exists, is still running, and signalling does not raise (after SIGTERM, or after SIGKILL once the grace period expires); failure changes nothing; success marks the record `"stopped"`, clears pid and start time, keeps the handle entry and leaves every other record alone |
| Supervisor.ErrorIsNotRunning | procman/common/process_manager.py:41 | an error status is never `"running"` |
| Supervisor.StartStored | procman/common/process_manager.py:72 | starting the stored record object writes what the start did to it, including an error status, back into the table; other records and the key order are unchanged |
| Supervisor.Restart | procman/common/process_manager.py:66-72 | an unknown name fails with no change; every other record is untouched; running records keep a pid |
| Supervisor.RestartOutcome | procman/common/process_manager.py:66-72 | whatever the stop did, a restart succeeds iff the start is not rejected and the spawn succeeds; success leaves the record launched with the new pid and time; a spawn error leaves `"error: <message>"` in the stored record |
| Supervisor.UpdateStats | procman/common/process_manager.py:74-87 | an unknown name or a falsy pid changes nothing; a found process gets fresh percentages; a vanished one is marked `"died"` with no pid and zero usage while its start time is kept; handles, keys and other records are unchanged |
| Supervisor.Admit | procman/common/process_manager.py:104-106 | one loop entry leaves the name stored and, unless the entry is autostart, the handles unchanged; other names keep their handles, or their lack of one; the table stays well formed, and running records keep a pid when the entry does |
| Supervisor.AdmitStores | procman/common/process_manager.py:104-106 | one loop entry stores the decoded record itself when it is not autostart, and otherwise the record as the start of the stored object left it (differing only in pid, status and start time); every other name keeps its record, or its absence |
| Supervisor.Load | procman/common/process_manager.py:102-106 | the `processes` loop of `load_config` keeps the table well formed |
| Supervisor.LoadError | procman/common/process_manager.py:102-106 | the load reports an error iff some entry fails to decode |
| Supervisor.LoadErrorWitness | procman/common/process_manager.py:102-106 | a reported error is the decoding error of one of the entries |
| Supervisor.LoadConsistent | procman/common/process_manager.py:102-106 | if the configuration lists no running record without a pid, every running record still has a pid after loading |
| Supervisor.StopAll | procman/common/process_manager.py:108-111 | stopping a list of names one after another keeps the table well formed, keeps every handle and the key order, and keeps running records paired with a pid |
| Supervisor.StopAllEffect | procman/common/process_manager.py:108-111 | after stopping a list of names, a record is halted iff its name is listed and its own stop would succeed from the starting table; any other record is as it was |
| Supervisor.CleanupEffect | procman/common/process_manager.py:108-111 | stopping every name with a handle halts exactly the records whose own stop would succeed and leaves the rest unchanged |
| Supervisor.LoadUntouched | procman/common/process_manager.py:102-106 | a name that no decoded entry carries keeps its record, or its absence, through the load |
| Supervisor.LoadKeeps | procman/common/process_manager.py:102-106 | a load never drops a stored name |
| Supervisor.LoadNames | procman/common/process_manager.py:102-106 | every entry the load reaches and decodes has its name stored afterwards |
| Supervisor.LoadLastWins | procman/common/process_manager.py:102-106 | a name holds the configuration of the last decoded entry carrying it: that record itself when it is not autostart, and that record with only pid, status and start time changed by its start otherwise |
| Supervisor.LoadStartsOnlyAutostart | procman/common/process_manager.py:102-106 | a name that no decoded autostart entry carries keeps its handle, or its lack of one |
| Supervisor.ProcessManager.constructor | procman/common/process_manager.py:14-16 | both dictionaries start empty |
| Supervisor.ProcessManager.StartProcess | procman/common/process_manager.py:18-42 | the result, the caller's updated record and the new state are exactly those of `Start` |
| Supervisor.ProcessManager.StopProcess | procman/common/process_manager.py:44-64 | the result and the new state are exactly those of `Stop` |
| Supervisor.ProcessManager.RestartProcess | procman/common/process_manager.py:66-72 | the result and the new state are exactly those of `Restart`, obtained by calling the stop and start methods in place |
| Supervisor.ProcessManager.UpdateProcessStats | procman/common/process_manager.py:74-87 | the new state is exactly that of `UpdateStats` |
| Supervisor.ProcessManager.GetProcessInfo | procman/common/process_manager.py:89-91 | returns a record iff the name is stored, and that record carries the name |
| Supervisor.ProcessManager.GetAllProcesses | procman/common/process_manager.py:93-95 | one record per stored name, in insertion order, each under its own name, no name twice |
| Supervisor.ProcessManager.AdmitEntry | procman/common/process_manager.py:104-106 | one iteration of the loop leaves exactly the state of `Admit` |
| Supervisor.ProcessManager.LoadConfig | procman/common/process_manager.py:97-106 | the loop leaves exactly the state and error of `Load` |
| Supervisor.ProcessManager.Cleanup | procman/common/process_manager.py:108-111 | the loop leaves exactly the state of `StopAll` over the names that had a handle on entry, so `CleanupEffect` describes it |
| Coordinator.NormalizeUrl | procman/sheriff/sheriff.py:24-25 | the URL is kept if it starts with `http`; otherwise it is prefixed with `http://`; the result always starts with `http` |
| Coordinator.NormalizeIdempotent | procman/sheriff/sheriff.py:24-25 | normalising twice is normalising once |
| Coordinator.Register | procman/sheriff/sheriff.py:21-37 | probes `<url>/health`; returns true iff the reply is 200 with a hostname (a string, in the model), and then maps that hostname to the normalised URL, overwriting any earlier entry; any other reply or connection error returns false with no change; a 200 reply without a hostname raises, and the call raises exactly on such a reply |
| Coordinator.DropHost | procman/sheriff/sheriff.py:44-47 | exactly the mirrored records on other hosts remain, unchanged |
| Coordinator.BodyDecodes | procman/sheriff/sheriff.py:61-64 | a start request carries the record's `to_dict()` form, and that body decodes back to the record that was posted |
| Coordinator.Launch | procman/sheriff/sheriff.py:53-73 | an unregistered host sends nothing and fails; otherwise the record's dictionary form is posted to `<deputy>/process/start`; success iff the reply is 200, and only success stores the record in the mirror under its name |
| Coordinator.DecodeAll | procman/sheriff/sheriff.py:149-150 | the list comprehension over one deputy's body; its meaning is stated by `DecodeAllMeaning` |
| Coordinator.DecodeAllMeaning | procman/sheriff/sheriff.py:149-150 | a deputy's list decodes iff every entry does; then it decodes entry by entry, in order; otherwise the error is that of the first entry that fails |
| Coordinator.ListRequests | procman/sheriff/sheriff.py:145-147 | one `GET <url>/processes` per registered deputy, in registry order |
| Coordinator.Gather | procman/sheriff/sheriff.py:142-155 | the fan-out of `get_all_processes` over the deputies' replies; its properties are stated by `GatherStep`, `GatherAppend` and `GatherSources` |
| Coordinator.GatherStep | procman/sheriff/sheriff.py:145-154 | one deputy's step: a decoding error raises; otherwise its records are appended and the fan-out goes on |
| Coordinator.GatherAppend | procman/sheriff/sheriff.py:142-155 | the fan-out over two parts of the registry concatenates their records in order, and an error in the first part wins |
| Coordinator.GatherSources | procman/sheriff/sheriff.py:142-155 | every record returned was decoded from the list of a deputy that answered 200; failing deputies contribute nothing |
| Coordinator.NatToString | procman/sheriff/sheriff.py:166 | `str(n)` for a non-negative integer is a non-empty string of decimal digits, with no leading zero unless `n` is 0 |
| Coordinator.DigitsRoundTrip | procman/sheriff/sheriff.py:166 | reading those digits back gives the number |
| Coordinator.Classify | procman/sheriff/sheriff.py:161-168 | `"healthy"` iff the reply is 200; another code gives `"unhealthy (status: <code>)"`; a connection error gives `"unreachable (<message>)"` |
| Coordinator.UnhealthyNamesCode | procman/sheriff/sheriff.py:166 | the status of an unhealthy deputy holds decimal digits that denote its status code |
| Coordinator.Merge | procman/sheriff/sheriff.py:209-210 | writing fetched records into the mirror keeps every record under its own name |
| Coordinator.MergeNames | procman/sheriff/sheriff.py:209-210 | after a poll tick the mirror holds exactly the old names and the reported ones |
| Coordinator.MergeUntouched | procman/sheriff/sheriff.py:209-210 | a name that no deputy reports keeps its record |
| Coordinator.LastWriterWins | procman/sheriff/sheriff.py:209-210 | a reported name holds the last record reported under it |
| Coordinator.RegisterAll | procman/sheriff/sheriff.py:186-188 | the deputies loop keeps the registry well formed and sends at most one probe per URL |
| Coordinator.RegisterAllProbes | procman/sheriff/sheriff.py:186-188 | the loop sends the `<url>/health` probes in URL order, a prefix of one per URL, and all of them when nothing raises |
| Coordinator.RegisterAllStops | procman/sheriff/sheriff.py:186-188 | the loop ends without error iff no reply raises; otherwise it stops right after the first probe whose reply raises |
| Coordinator.RegisterAllRegistry | procman/sheriff/sheriff.py:186-188 | the final registry is the old one with each registration (hostname, URL of a 200 reply before the first raise) written in order, so `Dicts.PutAllLast` and `Dicts.PutAllUntouched` give: a hostname maps to the URL of the last reply naming it, and other hostnames keep their URL |
| Coordinator.LaunchAll | procman/sheriff/sheriff.py:191-197 | the processes loop keeps every mirrored record under its own name |
| Coordinator.LaunchAllRequests | procman/sheriff/sheriff.py:191-197 | the processes loop sends exactly one start request per gated entry (decoded, registered host, autostart), in configuration order up to the first entry that fails to decode, and nothing else |
| Coordinator.LaunchAllMirror | procman/sheriff/sheriff.py:191-197 | the mirror after the loop is the old mirror with the gated records whose reply is 200 written in order, so `MergeUntouched` and `LastWriterWins` give: a name holds the last such record carrying it |
| Coordinator.LaunchAllOnlyGated | procman/sheriff/sheriff.py:191-197 | every start request posts an entry that decodes to a record on a registered host marked autostart, to that host's deputy; a name that no such entry carries keeps its mirror entry, or its absence |
| Coordinator.Sheriff.constructor | procman/sheriff/sheriff.py:15-17 | the registry and the mirror start empty |
| Coordinator.Sheriff.AddDeputy | procman/sheriff/sheriff.py:21-37 | result, request and new registry are exactly those of `Register`; the mirror is unchanged |
| Coordinator.Sheriff.RemoveDeputy | procman/sheriff/sheriff.py:39-51 | true iff the hostname was registered; then the entry is deleted and the mirror drops that host's records, which are not stopped; otherwise nothing changes |
| Coordinator.Sheriff.StartProcess | procman/sheriff/sheriff.py:53-73 | result, request and new mirror are exactly those of `Launch`; the registry is unchanged |
| Coordinator.Sheriff.StopProcess | procman/sheriff/sheriff.py:75-96 | a name not mirrored, or on an unregistered host, sends nothing and fails; otherwise it posts `<deputy>/process/stop/<name>` and succeeds iff the reply is 200; the registry and mirror are never changed |
| Coordinator.Sheriff.RestartProcess | procman/sheriff/sheriff.py:98-119 | as the stop, with `<deputy>/process/restart/<name>` |
| Coordinator.Sheriff.GetProcessInfo | procman/sheriff/sheriff.py:121-140 | None without a request when the name cannot be routed; otherwise `GET <deputy>/process/<name>`; None unless 200; a 200 body is decoded, and a decoding error escapes the call |
| Coordinator.Sheriff.DecodeBody | procman/sheriff/sheriff.py:149-150 | the inner loop decodes exactly as `DecodeAll`, the list comprehension |
| Coordinator.Sheriff.GetAllProcesses | procman/sheriff/sheriff.py:142-155 | the loop's outcome is exactly the fan-out `Gather`; the requests are a prefix of `ListRequests`, the whole of it when the loop completes |
| Coordinator.Sheriff.GetDeputyStatus | procman/sheriff/sheriff.py:157-175 | sends one `GET <url>/health` per registered deputy, in registry order, and returns one entry per deputy in the same order, with its hostname, its URL and the classification of its health reply |
| Coordinator.Sheriff.ProbeHealth | procman/sheriff/sheriff.py:160-174 | the loop over the `(hostname, url)` entries: the i-th request is `GET <url>/health` of the i-th entry, and the i-th status carries that entry and the classification of the i-th reply |
| Coordinator.Sheriff.HealthStatus | procman/sheriff/sheriff.py:163-168 | the status string written for one health reply is its classification |
| Coordinator.Sheriff.PollTick | procman/sheriff/sheriff.py:207-211 | a fan-out error leaves the mirror unchanged; otherwise the mirror becomes `Merge` of the fetched records; the registry is unchanged |
| Coordinator.Sheriff.MergeFetched | procman/sheriff/sheriff.py:209-210 | the write-back loop leaves exactly the mirror `Merge` computes from the fetched records; the registry is unchanged |
| Coordinator.Sheriff.RegisterDeputies | procman/sheriff/sheriff.py:186-188 | the loop leaves exactly the registry, requests and error of `RegisterAll` |
| Coordinator.Sheriff.StartConfigured | procman/sheriff/sheriff.py:191-197 | the loop leaves exactly the mirror, requests and error of `LaunchAll` |
| Coordinator.Sheriff.LoadConfig | procman/sheriff/sheriff.py:177-203 | all deputies are registered first; an escaping error ends the load with the mirror untouched; otherwise the processes loop runs against the final registry, and its requests follow the probes |

## Left out

- Reading and parsing the JSON configuration file is not modelled, and neither is `config.get(..., [])`. The loaded lists are inputs. File-not-found and invalid-JSON errors are not modelled.
- HTTP transport: each reply is given as a status code with an already decoded JSON body, or as a connection error. A 200 reply whose body is not JSON is not modelled.
- Python does not type-check the values `from_dict` receives. The model requires each field's value to have its declared kind and otherwise reports `IllTyped`. An integer is accepted for a float field.
- Coordinator.Register: a 200 reply whose `hostname` is present but not a string (a number, `null`) raises `IllTyped` in the model. The source stores that value as a registry key and returns true. Registry keys are strings here.
- Coordinator.LaunchAll: one clock reading `now` serves every start request of a load. The source reads the clock again in each `to_dict()` call. This only affects the `uptime` entry of each body.
- Records.ToDictKeys: does not state the value of `uptime` when there is a start time (it is `now - start_time`), because that depends on the clock parameter.
- Floating-point arithmetic is carried as exact `real` values.
- Supervisor.Stop: does not model SIGKILL itself raising after the grace period expires. In the source that exception escapes `stop_process`.
- Supervisor.UpdateStats: `psutil.AccessDenied` and other sampling errors are not modelled. Only "found" and `NoSuchProcess` are.
- Supervisor.Start: the spawn oracle is free to succeed on an empty argv. In the source `Popen([])` raises.
- Supervisor.LoadConsistent: requires that the configuration lists no `"running"` record without a pid. `load_config` stores records as given.
- Stdout and stderr pipes, output buffers, exit codes and process groups are not modelled. The handle keeps only pid, argv and working directory.
- Caller-held aliasing: a caller's `ProcessInfo` object mutated by `start_process` is returned as a value. The table gets it back only where the source passes the stored object itself (restart and load).
- Threads: `start_update_thread` and `stop_update_thread`, their `sleep` and their stop flag are not modelled. One iteration of the update loop is `Coordinator.Sheriff.PollTick`. In the source a decoding error escapes the loop and ends the update thread.
- Logging is not modelled.
- The deputy's FastAPI handlers, the CLI and the GUI are not part of this model.
