# The runsc `debug` command, modelled in Dafny

`runsc debug` finds a running gVisor sandbox, either by container id or by
scanning every container for the one whose sandbox has a given process id. It
then runs the requested diagnostics against that sandbox in a fixed order:
- send a signal;
- dump the stacks;
- write a heap profile;
- start a CPU profile;
- start an execution trace;
- change the sandbox's logging (syscall tracing, log level, packet logging);
- sleep for the profile delay when a CPU profile or a trace is running.

Opened files and running captures are released by deferred cleanups. These run
last-registered-first on every return path. A failed stop of a capture ends the
process.

The model has six modules:

- `Wrappers`: `Option` and `Result`.
- `GoStrings`: the Go library functions the command uses, which are `strings.ToLower`, `strings.Split` with a one-rune separator, and `strconv.ParseBool` (Go's documented literal table).
- `Control`: `LoggingArgs` and `Level`.
- `LoggingChange`: `BuildLoggingArgs`, the pure specification of how the three logging flags become one request or a validation error, and its parse-table lemmas.
- `DebugCommand`:
  - the flags (`Debug`, `Defaults`);
  - the outside world as an oracle (`Env`: the container registry, `List`, file creation, and the success of each sandbox call);
  - the calls the command makes (`Event`);
  - the specification `Run`, which maps flags, arguments and environment to the exit status and the ordered log of calls.

  It also holds the imperative `Execute`, which follows the source step by step and is proved equal to `Run`. Inside it:
  - a scan loop stops at the first matching pid;
  - a `delay` flag is set by either timed capture;
  - the request is filled in field by field;
  - an explicit cleanup stack is popped from the top at the return.
- `DebugProperties`: lemmas about `Run`:
  - resolution;
  - phase order;
  - the signal;
  - cleanups;
  - the logging change;
  - the delay;
  - three end-to-end runs.

`Run`'s actions are a chain of per-step effects. Each effect records the calls
it made, the failure it returns (if any) and the cleanups it registered. A
failed step ends the chain, which models Go's early `return` after the cleanups
registered so far.

Facts of the code that are easy to miss:
- A cleanup closes the file before it stops the capture (debug.go:157-158, 175-176).
- In the end-to-end CPU run, the file is therefore closed before the profile is stopped.
- An invalid `-log-level` with a container id is reported after the container has been loaded: the lookup happens first (debug.go:88 before 217).
- Every opened file gets its cleanup only when no stop fails first: a failed stop ends the process, and the cleanups below it never run (`OpenedFilesCleanedUp` requires a non-fatal exit; `FatalOnlyFromStop` describes the fatal case).

## Model

| member | source | states |
|---|---|---|
| DebugCommand.Execute | runsc/cmd/debug.go:77-247 | The imperative command returns exactly the exit status and call log of the specification `Run` for every flag set, argument list and environment |
| DebugCommand.FindSandbox | runsc/cmd/debug.go:81-119 | Finding the target by id or by a pid scan loop that breaks at the first match gives exactly the resolution `Resolve` describes, including every usage error, load failure, not-found and not-running exit and the lookups made |
| DebugCommand.ScanStop | runsc/cmd/debug.go:102-111 | The scan position is within the list; every id before it loads and has another sandbox pid; the id at it fails to load or has the requested pid |
| DebugCommand.Inspect | runsc/cmd/debug.go:122-147 | The signal, stack dump and heap profile, each returning on failure, make the calls, failure and cleanups of the first three steps of the specification |
| DebugCommand.StartCaptures | runsc/cmd/debug.go:149-186 | For the CPU profile and the trace: create the file, then register its cleanup, then start; the result equals the two specification steps after the given state; `delay` is set exactly when either capture was requested |
| DebugCommand.LevelSwitch | runsc/cmd/debug.go:209-218 | The switch gives a level exactly when the lower-cased flag is that level's name or number (warning/0, info/1, debug/2), and nothing otherwise; this is `ParseLevel`, which the request builder uses |
| DebugCommand.LoggingRequest | runsc/cmd/debug.go:188-234 | Filling in the request field by field, returning on the first invalid flag, gives exactly `BuildLoggingArgs` |
| DebugCommand.ApplyLogging | runsc/cmd/debug.go:188-240 | The logging block equals the specification's logging step: nothing when no flag is given, a validation failure with no call, or one ChangeLogging call that may fail; no cleanup is registered |
| DebugCommand.RunDeferred | runsc/cmd/debug.go:141-180 | Popping the cleanup stack from the top, with a failed stop ending at once as fatal, gives the status and calls of `Unwind` appended to the log so far |
| DebugCommand.ReturnsAt | runsc/cmd/debug.go:122-246 | A return after any failed step (or after the last step) gives the outcome of the steps so far plus the cleanups they registered, which is the run's outcome |
| DebugProperties.UsageErrorIffWrongArgCount | runsc/cmd/debug.go:81-96 | A usage error happens exactly when the argument count does not fit the mode (one id without a pid, none with one), and then no lookup is made |
| DebugProperties.LookupsOnly | runsc/cmd/debug.go:81-119 | Resolution makes only List and Load calls |
| DebugProperties.RejectedBeforeActions | runsc/cmd/debug.go:81-119 | When no running sandbox is found, the run ends with the resolution's status and its lookups, with no action and no cleanup |
| DebugProperties.NotRunningStops | runsc/cmd/debug.go:117-119 | A container with no sandbox or a stopped sandbox fails as not running after its single Load |
| DebugProperties.ScanFirstMatch | runsc/cmd/debug.go:102-111 | The pid scan takes the first container whose sandbox pid matches. It has loaded exactly the ids up to it, in list order, and succeeds exactly when that container's sandbox is running, acting on that sandbox |
| DebugProperties.ScanLoadFailure | runsc/cmd/debug.go:103-106 | The first id that fails to load ends the scan with that id's failure, and no later id is tried |
| DebugProperties.ScanNotFound | runsc/cmd/debug.go:112-114 | When every id loads and none matches, the pid is reported not found after all ids were loaded |
| DebugProperties.DefaultsOnlyLookUp | runsc/cmd/debug.go:63-74 | With the flag defaults (signal -1, no captures, no logging flags) a found sandbox is only looked up and the command succeeds |
| DebugProperties.PlanPhases | runsc/cmd/debug.go:122-246 | The calls the actions make when all succeed lie one phase per action, and the whole plan is in phase order |
| DebugProperties.KillPosition | runsc/cmd/debug.go:122-127 | A signal in the plan can only be its first call, and only for a positive signal to the sandbox's pid |
| DebugProperties.LoggingPosition | runsc/cmd/debug.go:188-240 | A logging change in the plan can only come right after the trace step, with the request that is sent |
| DebugProperties.SleepPosition | runsc/cmd/debug.go:242-244 | A sleep in the plan can only be its last call, for the profile delay, and only when a CPU profile or trace was requested |
| DebugProperties.CallStepsFollow | runsc/cmd/debug.go:122-135 | The signal and stack steps each make a prefix of their planned calls, and all of them when they succeed. Each succeeds exactly when it is not requested or its call succeeds |
| DebugProperties.CaptureStepsFollow | runsc/cmd/debug.go:136-186 | Each capture step makes a prefix of its create-then-start calls, and all of them when it succeeds. It succeeds exactly when it is not requested, or its file can be created and the capture starts |
| DebugProperties.LoggingStepFollows | runsc/cmd/debug.go:188-244 | The logging step sends the built request or nothing, and succeeds exactly when no flag is given, or the flags are valid and the change is accepted. The delay step never fails |
| DebugProperties.ActionsFollowPlan | runsc/cmd/debug.go:122-246 | The actions make a prefix of the planned calls, in order, stopping at the first failure. They all succeed exactly when every requested action can. A failed run stops before the delay |
| DebugProperties.SignalFirst | runsc/cmd/debug.go:122-127 | A positive signal is the first call of the actions |
| DebugProperties.UnwindIsCleanup | runsc/cmd/debug.go:141-180 | The cleanups make only Close and Stop calls |
| DebugProperties.RunResolved | runsc/cmd/debug.go:117-247 | Once the sandbox is found, the run is the lookups, the actions, then the cleanups of what the actions registered, with the status they give |
| DebugProperties.RunShape | runsc/cmd/debug.go:77-247 | A found sandbox's log is lookups, then a prefix of the planned action calls, then cleanup calls only |
| DebugProperties.RunOrdered | runsc/cmd/debug.go:77-247 | Every run's calls are in phase order: lookups, signal, stacks, heap, CPU, trace, logging change, sleep, then cleanups |
| DebugProperties.SignalOnceIffPositive | runsc/cmd/debug.go:122-127 | Once the sandbox is found, a signal is sent exactly when the signal flag is positive. It is sent once, as the first action, to the sandbox's pid |
| DebugProperties.CallsTrack | runsc/cmd/debug.go:122-246 | The signal, stacks, logging and delay steps register no cleanup (they open no file) |
| DebugProperties.HeapTracks | runsc/cmd/debug.go:136-147 | The heap step registers the close of its file exactly when the file was created |
| DebugProperties.CpuTracks | runsc/cmd/debug.go:150-165 | The CPU step registers its cleanup exactly when its file was created, whether or not the profile then starts |
| DebugProperties.TraceTracks | runsc/cmd/debug.go:168-183 | The trace step registers its cleanup exactly when its file was created, whether or not the trace then starts |
| DebugProperties.CapturesTrack | runsc/cmd/debug.go:136-183 | Each capture step registers one cleanup per file it created |
| DebugProperties.CleanupPerOpenedFile | runsc/cmd/debug.go:136-186 | On every path, the cleanups registered are exactly one per file created, in creation order |
| DebugProperties.UnwindLifo | runsc/cmd/debug.go:141-180 | When no stop fails, each registered cleanup runs once, last registered first |
| DebugProperties.UnwindFatal | runsc/cmd/debug.go:156-180 | The cleanups end the process exactly when one of their stops fails, and the failed stop is then their last call |
| DebugProperties.OpenedFilesCleanedUp | runsc/cmd/debug.go:136-186 | On every non-fatal path after the sandbox is found, every file the actions created gets its cleanup, last created first, after the actions |
| DebugProperties.FatalOnlyFromStop | runsc/cmd/debug.go:156-180 | A fatal exit comes only from a failed stop of the CPU profile or the trace, and that stop is the command's last call |
| DebugProperties.SuccessRegisters | runsc/cmd/debug.go:136-183 | When every capture succeeds, the planned calls register the heap, CPU and trace cleanups, in that order, for the files requested |
| DebugProperties.UnwindPush | runsc/cmd/debug.go:156-180 | The newest cleanup runs first. If it fails the process ends, otherwise the older cleanups follow |
| DebugProperties.SuccessUnwinds | runsc/cmd/debug.go:156-180 | After a fully successful run, the cleanups end the process exactly when a requested capture fails to stop. Otherwise they close and stop the trace, then the CPU profile, then close the heap file |
| DebugProperties.SuccessfulActions | runsc/cmd/debug.go:122-246 | When every requested action can succeed, the actions make all planned calls and register the requested captures' cleanups |
| DebugProperties.SuccessPath | runsc/cmd/debug.go:77-247 | Success happens exactly when the sandbox is found, every requested action succeeds and every started capture stops. The log is then the lookups, all planned calls in order, then trace, CPU and heap teardown |
| DebugProperties.CpuStartFails | runsc/cmd/debug.go:152-165 | A CPU profile that does not start ends the actions after create and start, with its cleanup registered on top |
| DebugProperties.CpuFailureUnwinds | runsc/cmd/debug.go:156-162 | That cleanup closes the file and stops the profile first. A failed stop is fatal; otherwise the heap file is closed too, if one was written |
| DebugProperties.CpuStartFailureStillStops | runsc/cmd/debug.go:149-165 | A CPU profile whose start fails still has its file closed and its profile stopped. The command fails with the start error, or is fatal if the stop also fails |
| DebugProperties.TraceStartFailureStillStops | runsc/cmd/debug.go:168-183 | A trace whose start fails still has its file closed and tracing stopped, before any older cleanup. The command fails with the start error, or is fatal if a stop fails |
| DebugProperties.ChangeLoggingOnce | runsc/cmd/debug.go:188-240 | A logging change is sent at most once, only when a logging flag is given and all flags are valid, and always with the request built from the flags |
| DebugProperties.ChangeLoggingSent | runsc/cmd/debug.go:236-238 | A valid request is sent whenever the actions before it succeed and a logging flag is given |
| DebugProperties.ValidationBeforeSend | runsc/cmd/debug.go:207-228 | An invalid level or packet flag fails the command before anything is sent, and the cleanups already registered still run |
| DebugProperties.SleepIffTimedCapture | runsc/cmd/debug.go:149-246 | The command sleeps exactly when a CPU profile or trace was requested and every action succeeded. It sleeps once, for the profile delay, after all actions and before any cleanup. A run with neither capture never sleeps |
| DebugProperties.StacksByContainerId | runsc/cmd/debug.go:81-135 | With only stacks requested for a running container id, there is one Load, one stack dump, no delay and success |
| DebugProperties.CpuProfileByPid | runsc/cmd/debug.go:98-247 | A 5-second CPU profile for sandbox pid 42: List and Load, then create, start, sleep 5, close, stop, and success |
| DebugProperties.BogusLogLevel | runsc/cmd/debug.go:207-217 | An unknown log level for a running container fails with that level after its Load, and nothing is sent |
| LoggingChange.ParseLevelAccepts | runsc/cmd/debug.go:209-216 | A level is accepted exactly when the lower-cased flag is that level's name or number |
| LoggingChange.ParseLevelRoundTrip | runsc/cmd/debug.go:209-215 | Each level's name and number parse back to that level |
| LoggingChange.ValidationAllOrNothing | runsc/cmd/debug.go:207-228 | A request is built exactly when both the level and the packet flag are empty or valid. An invalid level is the error reported, even if the packet flag is also invalid |
| LoggingChange.StraceTable | runsc/cmd/debug.go:189-205 | Tracing is always marked as set. It is enabled exactly for a non-empty flag that is not "off" in any case. The whitelist is empty for no flag, "off" or "all"; otherwise its pieces have no comma and join back to the flag as given |
| LoggingChange.LevelAndPacketsApplied | runsc/cmd/debug.go:207-228 | The level and packet settings are marked exactly when their flags are given, with the parsed values |
| LoggingChange.LevelAloneDisablesStrace | runsc/cmd/debug.go:188-189 | Giving only a log level still sends "tracing set, disabled" |
| LoggingChange.ReadWriteWhitelist | runsc/cmd/debug.go:200-201 | "read,write" enables tracing of exactly read and write |
| LoggingChange.OffInAnyCase | runsc/cmd/debug.go:192-193 | "OFF" disables tracing like "off" |
| GoStrings.ToLower | runsc/cmd/debug.go:192-197 | Lower-casing keeps the length and maps each rune on its own |
| GoStrings.Split | runsc/cmd/debug.go:201 | Splitting gives at least one piece, and no piece contains the separator |
| GoStrings.JoinSplit | runsc/cmd/debug.go:201 | The pieces of a split join back to the original string |
| GoStrings.SplitJoin | runsc/cmd/debug.go:201 | Splitting the join of separator-free pieces gives the pieces back |

## Left out

- The bodies of the external calls are not modelled. These are `syscall.Kill`, `os.Create`, file `Close`, `container.Load`, `container.List` and the sandbox calls (`Stacks`, `HeapProfile`, start and stop of the CPU profile and the trace, `ChangeLogging`, `IsRunning`). Each is one recorded event whose success is a fixed answer in `Env`, and a sandbox's liveness is a boolean. They are operating-system I/O and foreign calls.
- `Env` gives the same answer to every call of the same kind. A real sandbox could answer differently over time. In the model, repeated calls with the same id or path get the same answer: a list that repeats an id loads it twice, and two flags naming one path create it twice.
- `time.Sleep` is only a `Sleep(seconds)` event. There is no timing, and the overflow of `time.Duration(d.profileDelay) * time.Second` for huge delays is not modelled.
- `Fatalf`'s process exit is modelled only as the terminal `Fatal` status: no later cleanup runs and nothing is returned.
- Flag parsing, the `Name`, `Synopsis` and `Usage` texts, the `f.Usage()` output, every `log.Infof` message and the error-message texts are left out. Errors are identified by kind and the values they carry. The text also includes the `%d` verb applied to a string at line 217. These are command-line and logging plumbing.
- The stack dump's content is not kept; the dump is one `Stacks` event.
- The `boot.Config` argument and its root directory are left out: the registry in `Env` stands for the one under that directory.
- `strconv.ParseBool` is modelled as its documented literal table, not its library internals.
- `GoStrings.ToLower` models only the lower-casing that can turn a rune into ASCII: ASCII capitals, U+0130 and U+212A. Other non-ASCII runes, which Go maps to other non-ASCII runes, are kept unchanged. This never changes a comparison with "off", "all" or a level name. Invalid UTF-8 input is not modelled, because strings are sequences of Unicode scalar values.
- The file handle of each capture is identified by its kind (heap, CPU or trace) rather than by an OS handle. Two flags naming the same path still give two files, as in the source.
