/**
 * The "debug" command of runsc: find a running sandbox by container id or by
 * sandbox process id, then run the requested diagnostic actions against it in
 * a fixed order, with cleanups that run, last registered first, on every
 * return path.
 *
 * Everything outside the command is an oracle in Env (container registry,
 * signal delivery, file creation, sandbox calls), and every call into it is
 * recorded as an Event, so that the command's behaviour is its exit status
 * together with the ordered log of the calls it made.
 */
module DebugCommand {
  import opened Wrappers
  import opened GoStrings
  import Control
  import opened LoggingChange

  /** The command's flags, fixed once parsed. */
  datatype Debug = Debug(
    pid: int,
    stacks: bool,
    signal: int,
    profileHeap: string,
    profileCPU: string,
    profileDelay: int,
    trace: string,
    strace: string,
    logLevel: string,
    logPackets: string)

  /** The flag defaults: no pid, no signal (-1), a profile delay of 5 seconds, nothing else requested. */
  function Defaults(): Debug {
    Debug(pid := 0, stacks := false, signal := -1, profileHeap := "", profileCPU := "",
          profileDelay := 5, trace := "", strace := "", logLevel := "", logPackets := "")
  }

  /** A container's sandbox: its id, its process id and whether it reports itself running. */
  datatype Sandbox = Sandbox(id: string, pid: int, running: bool)

  /** A loaded container: the pid it reports for its sandbox, and the sandbox if there is one. */
  datatype Container = Container(sandboxPid: int, sandbox: Option<Sandbox>)

  /**
   * The outside world, as fixed answers: Load succeeds exactly for the ids in
   * containers, List gives list, os.Create succeeds exactly for the paths in
   * creatable, and each sandbox call or signal succeeds when its flag says so.
   */
  datatype Env = Env(
    containers: map<string, Container>,
    list: Option<seq<string>>,
    killOk: bool,
    stacksOk: bool,
    creatable: set<string>,
    heapOk: bool,
    startCpuOk: bool,
    stopCpuOk: bool,
    startTraceOk: bool,
    stopTraceOk: bool,
    changeLoggingOk: bool)

  /** The three output files the command may open. */
  datatype FileKind = HeapFile | CpuFile | TraceFile

  /** One call from the command into the outside world. */
  datatype Event =
    | List
    | Load(id: string)
    | Kill(pid: int, signal: int)
    | Stacks
    | Create(kind: FileKind, path: string)
    | HeapProfile
    | StartCPU
    | StopCPU
    | StartTrace
    | StopTrace
    | Close(kind: FileKind)
    | ChangeLogging(args: Control.LoggingArgs)
    | Sleep(seconds: int)

  /** The reasons for an ordinary failure status. */
  datatype Failure =
    | ListFailed
    | LoadFailed(id: string)
    | PidNotFound(pid: int)
    | NotRunning
    | SignalFailed(signal: int, pid: int)
    | StacksFailed
    | CreateFailed(path: string)
    | HeapProfileFailed
    | StartCpuFailed
    | StartTraceFailed
    | InvalidLogging(err: LoggingError)
    | ChangeLoggingFailed

  /** A failed stop in a cleanup, which ends the process. */
  datatype StopFailure = StopCpuFailed | StopTraceFailed

  /** How the command ends: the subcommand statuses, and the process ending on a failed stop. */
  datatype Exit = ExitSuccess | ExitUsageError | ExitFailure(failure: Failure) | Fatal(stop: StopFailure)

  datatype Outcome = Outcome(exit: Exit, log: seq<Event>)

  // ---------------------------------------------------------------------
  // Target resolution

  /** The positional arguments do not fit the selection mode: one container id without -pid, none with it. */
  predicate WrongArgCount(d: Debug, args: seq<string>) {
    if d.pid == 0 then |args| != 1 else |args| != 0
  }

  /**
   * Where the scan for a sandbox pid stops: at the first id that fails to load
   * or whose container reports that pid, or at the end of the list.
   */
  function ScanStop(ids: seq<string>, pid: int, containers: map<string, Container>): (k: nat)
    ensures k <= |ids|
    ensures forall j :: 0 <= j < k ==> ids[j] in containers && containers[ids[j]].sandboxPid != pid
    ensures k < |ids| ==> ids[k] !in containers || containers[ids[k]].sandboxPid == pid
  {
    if ids == [] then 0
    else if ids[0] !in containers || containers[ids[0]].sandboxPid == pid then 0
    else 1 + ScanStop(ids[1..], pid, containers)
  }

  function Loads(ids: seq<string>): seq<Event> {
    seq(|ids|, j requires 0 <= j < |ids| => Load(ids[j]))
  }

  datatype Resolution = Resolved(sandbox: Sandbox, events: seq<Event>) | Rejected(exit: Exit, events: seq<Event>)

  /** A found container is usable only if it has a sandbox that is running. */
  function Live(c: Container, events: seq<Event>): Resolution {
    if c.sandbox.Some? && c.sandbox.value.running then Resolved(c.sandbox.value, events)
    else Rejected(ExitFailure(NotRunning), events)
  }

  /** The running sandbox the command acts on, or the status it ends with, and the lookups made. */
  function Resolve(d: Debug, args: seq<string>, env: Env): Resolution {
    if WrongArgCount(d, args) then Rejected(ExitUsageError, [])
    else if d.pid == 0 then
      if args[0] in env.containers then Live(env.containers[args[0]], [Load(args[0])])
      else Rejected(ExitFailure(LoadFailed(args[0])), [Load(args[0])])
    else if env.list.None? then Rejected(ExitFailure(ListFailed), [List])
    else
      var ids := env.list.value;
      var k := ScanStop(ids, d.pid, env.containers);
      if k == |ids| then Rejected(ExitFailure(PidNotFound(d.pid)), [List] + Loads(ids))
      else if ids[k] !in env.containers then Rejected(ExitFailure(LoadFailed(ids[k])), [List] + Loads(ids[..k + 1]))
      else Live(env.containers[ids[k]], [List] + Loads(ids[..k + 1]))
  }

  // ---------------------------------------------------------------------
  // The actions, each as an effect: the calls it makes, the failure it ends
  // the command with (if any), and the cleanups it registers.

  /** A cleanup registered with defer: close the heap file, or close the CPU or trace file and stop that capture. */
  datatype Cleanup = CloseHeap | FinishCpu | FinishTrace

  datatype Effect = Effect(events: seq<Event>, failure: Option<Failure>, deferred: seq<Cleanup>)

  predicate Succeeds(e: Effect) {
    e.failure.None?
  }

  function Skip(): Effect {
    Effect([], None, [])
  }

  function Attempt(events: seq<Event>, ok: bool, failure: Failure, deferred: seq<Cleanup>): Effect {
    Effect(events, if ok then None else Some(failure), deferred)
  }

  /** Runs next only if done succeeded; a failed step ends the actions. */
  function Then(done: Effect, next: Effect): Effect {
    if done.failure.Some? then done
    else Effect(done.events + next.events, next.failure, done.deferred + next.deferred)
  }

  function SignalEffect(d: Debug, env: Env, sb: Sandbox): Effect {
    if d.signal > 0 then Attempt([Kill(sb.pid, d.signal)], env.killOk, SignalFailed(d.signal, sb.pid), [])
    else Skip()
  }

  function StacksEffect(d: Debug, env: Env): Effect {
    if d.stacks then Attempt([Stacks], env.stacksOk, StacksFailed, []) else Skip()
  }

  /** The heap file is closed only by its cleanup, so only at the end of the command. */
  function HeapEffect(d: Debug, env: Env): Effect {
    if d.profileHeap == "" then Skip()
    else if d.profileHeap !in env.creatable then Attempt([Create(HeapFile, d.profileHeap)], false, CreateFailed(d.profileHeap), [])
    else Attempt([Create(HeapFile, d.profileHeap), HeapProfile], env.heapOk, HeapProfileFailed, [CloseHeap])
  }

  /** The CPU cleanup is registered as soon as the file exists, before the profile is started. */
  function CpuEffect(d: Debug, env: Env): Effect {
    if d.profileCPU == "" then Skip()
    else if d.profileCPU !in env.creatable then Attempt([Create(CpuFile, d.profileCPU)], false, CreateFailed(d.profileCPU), [])
    else Attempt([Create(CpuFile, d.profileCPU), StartCPU], env.startCpuOk, StartCpuFailed, [FinishCpu])
  }

  /** The trace cleanup is registered as soon as the file exists, before tracing is started. */
  function TraceEffect(d: Debug, env: Env): Effect {
    if d.trace == "" then Skip()
    else if d.trace !in env.creatable then Attempt([Create(TraceFile, d.trace)], false, CreateFailed(d.trace), [])
    else Attempt([Create(TraceFile, d.trace), StartTrace], env.startTraceOk, StartTraceFailed, [FinishTrace])
  }

  predicate LoggingRequested(d: Debug) {
    Requested(d.strace, d.logLevel, d.logPackets)
  }

  function LoggingEffect(d: Debug, env: Env): Effect {
    if !LoggingRequested(d) then Skip()
    else match BuildLoggingArgs(d.strace, d.logLevel, d.logPackets)
      case Failure(err) => Attempt([], false, InvalidLogging(err), [])
      case Success(a) => Attempt([ChangeLogging(a)], env.changeLoggingOk, ChangeLoggingFailed, [])
  }

  /** A CPU profile or a trace was requested; the command then sleeps if it gets that far. */
  predicate TimedCapture(d: Debug) {
    d.profileCPU != "" || d.trace != ""
  }

  function DelayEffect(d: Debug): Effect {
    if TimedCapture(d) then Effect([Sleep(d.profileDelay)], None, []) else Skip()
  }

  // The actions up to and including each one, in their fixed order.
  function UntilStacks(d: Debug, env: Env, sb: Sandbox): Effect {
    Then(SignalEffect(d, env, sb), StacksEffect(d, env))
  }

  function UntilHeap(d: Debug, env: Env, sb: Sandbox): Effect {
    Then(UntilStacks(d, env, sb), HeapEffect(d, env))
  }

  function UntilCpu(d: Debug, env: Env, sb: Sandbox): Effect {
    Then(UntilHeap(d, env, sb), CpuEffect(d, env))
  }

  function UntilTrace(d: Debug, env: Env, sb: Sandbox): Effect {
    Then(UntilCpu(d, env, sb), TraceEffect(d, env))
  }

  function UntilLogging(d: Debug, env: Env, sb: Sandbox): Effect {
    Then(UntilTrace(d, env, sb), LoggingEffect(d, env))
  }

  /** All the actions, up to the optional sleep. */
  function Main(d: Debug, env: Env, sb: Sandbox): Effect {
    Then(UntilLogging(d, env, sb), DelayEffect(d))
  }

  // ---------------------------------------------------------------------
  // Cleanups

  datatype Unwinding = Unwinding(events: seq<Event>, fatal: Option<StopFailure>)

  /** One cleanup: the file is closed before its capture is stopped; a failed stop is fatal. */
  function Finish(c: Cleanup, env: Env): Unwinding {
    match c
    case CloseHeap => Unwinding([Close(HeapFile)], None)
    case FinishCpu => Unwinding([Close(CpuFile), StopCPU], if env.stopCpuOk then None else Some(StopCpuFailed))
    case FinishTrace => Unwinding([Close(TraceFile), StopTrace], if env.stopTraceOk then None else Some(StopTraceFailed))
  }

  /** The registered cleanups, from the last registered down, until one ends the process. */
  function Unwind(stack: seq<Cleanup>, env: Env): Unwinding
    decreases |stack|
  {
    if stack == [] then Unwinding([], None)
    else
      var top := Finish(stack[|stack| - 1], env);
      if top.fatal.Some? then top
      else
        var below := Unwind(stack[..|stack| - 1], env);
        Unwinding(top.events + below.events, below.fatal)
  }

  /** The status a return with the given failure ends with, once the cleanups have run. */
  function Status(failure: Option<Failure>, u: Unwinding): Exit {
    if u.fatal.Some? then Fatal(u.fatal.value)
    else if failure.Some? then ExitFailure(failure.value)
    else ExitSuccess
  }

  /** What the command does, as a whole. */
  function Run(d: Debug, args: seq<string>, env: Env): Outcome {
    match Resolve(d, args, env)
    case Rejected(exit, events) => Outcome(exit, events)
    case Resolved(sb, events) =>
      var m := Main(d, env, sb);
      var u := Unwind(m.deferred, env);
      Outcome(Status(m.failure, u), events + m.events + u.events)
  }

  /** The actions up to and including one of the steps, in their fixed order. */
  predicate IsStage(e: Effect, d: Debug, env: Env, sb: Sandbox) {
    || e == SignalEffect(d, env, sb)
    || e == UntilStacks(d, env, sb)
    || e == UntilHeap(d, env, sb)
    || e == UntilCpu(d, env, sb)
    || e == UntilTrace(d, env, sb)
    || e == UntilLogging(d, env, sb)
    || e == Main(d, env, sb)
  }

  /**
   * Once the target is found, a step that fails ends the actions: the outcome
   * is that of the steps up to the failed one, then of the cleanups they
   * registered.
   */
  lemma ReturnsAt(d: Debug, args: seq<string>, env: Env, sb: Sandbox, found: seq<Event>, e: Effect)
    requires Resolve(d, args, env) == Resolved(sb, found)
    requires IsStage(e, d, env, sb)
    requires !Succeeds(e) || e == Main(d, env, sb)
    ensures var u := Unwind(e.deferred, env);
      Outcome(Status(e.failure, u), found + e.events + u.events) == Run(d, args, env)
  {
    assert e == Main(d, env, sb);
  }

  // ---------------------------------------------------------------------
  // The command, step by step

  /**
   * A return: the deferred cleanups run from the top of the stack down; a
   * failed stop ends the process at once with a fatal status.
   */
  method RunDeferred(failure: Option<Failure>, log: seq<Event>, deferred: seq<Cleanup>, env: Env)
    returns (exit: Exit, out: seq<Event>)
    ensures var u := Unwind(deferred, env); exit == Status(failure, u) && out == log + u.events
  {
    var stack := deferred;
    out := log;
    while stack != []
      invariant out + Unwind(stack, env).events == log + Unwind(deferred, env).events
      invariant Unwind(stack, env).fatal == Unwind(deferred, env).fatal
      decreases |stack|
    {
      var top := stack[|stack| - 1];
      stack := stack[..|stack| - 1];
      match top
      case CloseHeap =>
        out := out + [Close(HeapFile)];
      case FinishCpu =>
        out := out + [Close(CpuFile), StopCPU];
        if !env.stopCpuOk {
          return Fatal(StopCpuFailed), out;
        }
      case FinishTrace =>
        out := out + [Close(TraceFile), StopTrace];
        if !env.stopTraceOk {
          return Fatal(StopTraceFailed), out;
        }
    }
    exit := if failure.Some? then ExitFailure(failure.value) else ExitSuccess;
  }

  /**
   * Finding the target: by container id, or by a scan of all containers for
   * the one whose sandbox has the requested pid; the sandbox must be running.
   */
  method FindSandbox(d: Debug, args: seq<string>, env: Env) returns (r: Resolution)
    ensures r == Resolve(d, args, env)
  {
    var log: seq<Event> := [];
    var c: Option<Container> := None;
    if d.pid == 0 {
      if |args| != 1 {
        return Rejected(ExitUsageError, []);
      }
      log := log + [Load(args[0])];
      if args[0] !in env.containers {
        return Rejected(ExitFailure(LoadFailed(args[0])), log);
      }
      c := Some(env.containers[args[0]]);
    } else {
      if |args| != 0 {
        return Rejected(ExitUsageError, []);
      }
      log := log + [List];
      if env.list.None? {
        return Rejected(ExitFailure(ListFailed), log);
      }
      var ids := env.list.value;
      ghost var k := ScanStop(ids, d.pid, env.containers);
      var i := 0;
      while i < |ids|
        invariant 0 <= i <= k
        invariant log == [List] + Loads(ids[..i])
        invariant c.None?
      {
        var id := ids[i];
        log := log + [Load(id)];
        assert ids[..i + 1] == ids[..i] + [id];
        if id !in env.containers {
          return Rejected(ExitFailure(LoadFailed(id)), log);
        }
        var candidate := env.containers[id];
        if candidate.sandboxPid == d.pid {
          c := Some(candidate);
          break;
        }
        i := i + 1;
      }
      if c.None? {
        assert ids[..i] == ids;
        return Rejected(ExitFailure(PidNotFound(d.pid)), log);
      }
    }
    if c.value.sandbox.None? || !c.value.sandbox.value.running {
      return Rejected(ExitFailure(NotRunning), log);
    }
    return Resolved(c.value.sandbox.value, log);
  }

  /** The -log-level switch: the lower-cased value against each level's name and number. */
  method LevelSwitch(logLevel: string) returns (level: Option<Control.Level>)
    ensures forall l :: level == Some(l) <==> ToLower(logLevel) == LevelName(l) || ToLower(logLevel) == LevelCode(l)
    ensures level == ParseLevel(logLevel)
  {
    var lower := ToLower(logLevel);
    if lower == "warning" || lower == "0" {
      level := Some(Control.Warning);
    } else if lower == "info" || lower == "1" {
      level := Some(Control.Info);
    } else if lower == "debug" || lower == "2" {
      level := Some(Control.Debug);
    } else {
      level := None;
    }
    forall l: Control.Level {
      ParseLevelAccepts(logLevel, l);
    }
  }

  /** The LoggingArgs request, filled in field by field, or the first rejected flag. */
  method LoggingRequest(d: Debug) returns (r: Result<Control.LoggingArgs, LoggingError>)
    ensures r == BuildLoggingArgs(d.strace, d.logLevel, d.logPackets)
  {
    var a := Control.LoggingArgs(setStrace := true, enableStrace := false, straceWhitelist := [],
                                 setLevel := false, level := Control.Warning, setLogPackets := false, logPackets := false);
    if d.strace != "" {
      if ToLower(d.strace) != "off" {
        a := a.(enableStrace := true);
        if ToLower(d.strace) != "all" {
          a := a.(straceWhitelist := Split(d.strace, ','));
        }
      }
    }
    assert a.enableStrace == (d.strace != "" && ToLower(d.strace) != "off");
    if |d.logLevel| != 0 {
      a := a.(setLevel := true);
      var level := LevelSwitch(d.logLevel);
      if level.None? {
        return Failure(InvalidLogLevel(d.logLevel));
      }
      a := a.(level := level.value);
    }
    if |d.logPackets| != 0 {
      a := a.(setLogPackets := true);
      var lp := ParseBool(d.logPackets);
      if lp.None? {
        return Failure(InvalidLogPackets(d.logPackets));
      }
      a := a.(logPackets := lp.value);
    }
    return Success(a);
  }

  /**
   * The first actions against the found sandbox: deliver the signal, dump the
   * stacks, write the heap profile (its file is closed only by a cleanup).
   */
  method Inspect(d: Debug, env: Env, sb: Sandbox) returns (failure: Option<Failure>, actions: seq<Event>, deferred: seq<Cleanup>)
    ensures Effect(actions, failure, deferred) == UntilHeap(d, env, sb)
  {
    actions, deferred := [], [];
    if d.signal > 0 {
      actions := actions + [Kill(sb.pid, d.signal)];
      if !env.killOk {
        return Some(SignalFailed(d.signal, sb.pid)), actions, deferred;
      }
    }
    assert Effect(actions, None, deferred) == SignalEffect(d, env, sb);
    if d.stacks {
      actions := actions + [Stacks];
      if !env.stacksOk {
        return Some(StacksFailed), actions, deferred;
      }
    }
    assert Effect(actions, None, deferred) == UntilStacks(d, env, sb);
    if d.profileHeap != "" {
      ghost var prior := actions;
      actions := actions + [Create(HeapFile, d.profileHeap)];
      if d.profileHeap !in env.creatable {
        return Some(CreateFailed(d.profileHeap)), actions, deferred;
      }
      deferred := deferred + [CloseHeap];
      actions := actions + [HeapProfile];
      assert actions == prior + [Create(HeapFile, d.profileHeap), HeapProfile];
      if !env.heapOk {
        return Some(HeapProfileFailed), actions, deferred;
      }
    }
    return None, actions, deferred;
  }

  /**
   * Starting the timed captures: for each of the CPU profile and the trace,
   * create the file, register its cleanup, then start the capture. Any request
   * for either sets delay, so the command sleeps before cleaning up.
   */
  method StartCaptures(d: Debug, env: Env, before: seq<Event>, stack: seq<Cleanup>)
    returns (failure: Option<Failure>, actions: seq<Event>, deferred: seq<Cleanup>, delay: bool)
    ensures Effect(actions, failure, deferred) ==
      Then(Then(Effect(before, None, stack), CpuEffect(d, env)), TraceEffect(d, env))
    ensures delay == TimedCapture(d)
  {
    actions, deferred := before, stack;
    delay := false;
    if d.profileCPU != "" {
      delay := true;
      ghost var prior := actions;
      actions := actions + [Create(CpuFile, d.profileCPU)];
      if d.profileCPU !in env.creatable {
        return Some(CreateFailed(d.profileCPU)), actions, deferred, delay;
      }
      deferred := deferred + [FinishCpu];
      actions := actions + [StartCPU];
      assert actions == prior + [Create(CpuFile, d.profileCPU), StartCPU];
      if !env.startCpuOk {
        return Some(StartCpuFailed), actions, deferred, TimedCapture(d);
      }
    }
    assert Effect(actions, None, deferred) == Then(Effect(before, None, stack), CpuEffect(d, env));
    if d.trace != "" {
      delay := true;
      ghost var prior := actions;
      actions := actions + [Create(TraceFile, d.trace)];
      if d.trace !in env.creatable {
        return Some(CreateFailed(d.trace)), actions, deferred, delay;
      }
      deferred := deferred + [FinishTrace];
      actions := actions + [StartTrace];
      assert actions == prior + [Create(TraceFile, d.trace), StartTrace];
      if !env.startTraceOk {
        return Some(StartTraceFailed), actions, deferred, delay;
      }
    }
    return None, actions, deferred, delay;
  }

  /**
   * The logging change, when any of -strace, -log-level or -log-packets is
   * given: the request is built and validated first, and sent only if valid.
   */
  method ApplyLogging(d: Debug, env: Env, before: seq<Event>, stack: seq<Cleanup>)
    returns (failure: Option<Failure>, actions: seq<Event>)
    ensures Effect(actions, failure, stack) == Then(Effect(before, None, stack), LoggingEffect(d, env))
  {
    actions := before;
    failure := None;
    if d.strace != "" || |d.logLevel| != 0 || |d.logPackets| != 0 {
      var request := LoggingRequest(d);
      if request.Failure? {
        return Some(InvalidLogging(request.error)), actions;
      }
      actions := actions + [ChangeLogging(request.value)];
      if !env.changeLoggingOk {
        return Some(ChangeLoggingFailed), actions;
      }
    }
  }

  /**
   * Debug.Execute: resolve the target, run the requested actions until one
   * fails, and return; every return after the target is found runs the
   * registered cleanups, which is where the paths below meet.
   */
  method Execute(d: Debug, args: seq<string>, env: Env) returns (exit: Exit, log: seq<Event>)
    ensures Outcome(exit, log) == Run(d, args, env)
  {
    var target := FindSandbox(d, args, env);
    if target.Rejected? {
      return target.exit, target.events;
    }
    var sb := target.sandbox;
    var found := target.events;

    // The calls made by the actions, after the lookups in found, and the
    // cleanups registered so far; the ghost stage is the effect of the steps so far.
    var failure, actions, deferred := Inspect(d, env, sb);
    ghost var stage := UntilHeap(d, env, sb);
    if failure.None? {
      var delay;
      failure, actions, deferred, delay := StartCaptures(d, env, actions, deferred);
      stage := UntilTrace(d, env, sb);
      assert Effect(actions, failure, deferred) == stage;
      if failure.None? {
        stage := UntilLogging(d, env, sb);
        failure, actions := ApplyLogging(d, env, actions, deferred);
        assert Effect(actions, failure, deferred) == stage;
        if failure.None? {
          stage := Main(d, env, sb);
          if delay {
            actions := actions + [Sleep(d.profileDelay)];
          }
          assert deferred + DelayEffect(d).deferred == deferred;
        }
      }
    }
    assert Effect(actions, failure, deferred) == stage;
    exit, log := RunDeferred(failure, found + actions, deferred, env);
    ReturnsAt(d, args, env, sb, found, stage);
  }
}
