/**
 * What the debug command promises, stated about its specification Run:
 * resolution failures come before any action, the actions happen in their
 * fixed order, the signal is delivered at most once, the logging change is
 * validated before it is sent, the delay comes before the cleanups, and
 * every opened output file gets its cleanup on every return path.
 */
module DebugProperties {
  import opened Wrappers
  import opened GoStrings
  import opened LoggingChange
  import opened DebugCommand
  import opened Control

  // ---------------------------------------------------------------------
  // Phases: which part of the command makes a call

  /** Lookups, then each action in turn, then the delay, then the cleanups. */
  function Phase(e: Event): nat {
    match e
    case List => 0
    case Load(_) => 0
    case Kill(_, _) => 1
    case Stacks => 2
    case Create(kind, _) => (match kind case HeapFile => 3 case CpuFile => 4 case TraceFile => 5)
    case HeapProfile => 3
    case StartCPU => 4
    case StartTrace => 5
    case ChangeLogging(_) => 6
    case Sleep(_) => 7
    case Close(_) => 8
    case StopCPU => 8
    case StopTrace => 8
  }

  /** The calls come in phase order. */
  predicate Ordered(log: seq<Event>) {
    forall i, j :: 0 <= i < j < |log| ==> Phase(log[i]) <= Phase(log[j])
  }

  /** Every call is in a phase from lo to hi. */
  predicate Between(log: seq<Event>, lo: nat, hi: nat) {
    forall i :: 0 <= i < |log| ==> lo <= Phase(log[i]) <= hi
  }

  lemma OrderedAppend(a: seq<Event>, b: seq<Event>, lo: nat, m1: nat, m2: nat, hi: nat)
    requires Ordered(a) && Between(a, lo, m1) && Ordered(b) && Between(b, m2, hi) && lo <= m1 <= m2 <= hi
    ensures Ordered(a + b) && Between(a + b, lo, hi)
  {
    forall k | 0 <= k < |a + b|
      ensures lo <= Phase((a + b)[k]) <= hi
    {
      if k < |a| {
        assert (a + b)[k] == a[k];
      } else {
        assert (a + b)[k] == b[k - |a|];
      }
    }
    forall i, j | 0 <= i < j < |a + b|
      ensures Phase((a + b)[i]) <= Phase((a + b)[j])
    {
      if i < |a| && |a| <= j {
        assert Phase((a + b)[i]) <= m1 && m2 <= Phase((a + b)[j]);
      }
    }
  }

  lemma SinglePhase(s: seq<Event>, k: nat)
    requires Between(s, k, k)
    ensures Ordered(s)
  {
  }

  lemma PrefixBetween(a: seq<Event>, p: seq<Event>, lo: nat, hi: nat)
    requires a <= p && Between(p, lo, hi)
    ensures Between(a, lo, hi)
  {
    assert forall i :: 0 <= i < |a| ==> a[i] == p[i];
  }

  lemma PrefixOrdered(a: seq<Event>, p: seq<Event>)
    requires a <= p && Ordered(p)
    ensures Ordered(a)
  {
    assert forall i :: 0 <= i < |a| ==> a[i] == p[i];
  }

  /** A call of an earlier phase than all of b lies in a. */
  lemma InLeft(a: seq<Event>, b: seq<Event>, k: int, lo: nat)
    requires Between(b, lo, 8) && 0 <= k < |a + b| && Phase((a + b)[k]) < lo
    ensures k < |a| && (a + b)[k] == a[k]
  {
  }

  /** A call of a later phase than all of a lies in b. */
  lemma InRight(a: seq<Event>, b: seq<Event>, k: int, hi: nat)
    requires Between(a, 0, hi) && 0 <= k < |a + b| && Phase((a + b)[k]) > hi
    ensures |a| <= k && (a + b)[k] == b[k - |a|]
  {
  }

  /** A log made of lookups, a prefix of the planned actions (and delay), then cleanups. */
  predicate Layout(found: seq<Event>, events: seq<Event>, tail: seq<Event>, plan: seq<Event>) {
    Between(found, 0, 0) && events <= plan && Between(plan, 1, 7) && Between(tail, 8, 8)
  }

  /** In such a log an action call sits among the actions, where the plan has it. */
  lemma Locate(found: seq<Event>, events: seq<Event>, tail: seq<Event>, plan: seq<Event>, i: int)
    requires Layout(found, events, tail, plan)
    requires 0 <= i < |found + events + tail| && 1 <= Phase((found + events + tail)[i]) <= 7
    ensures |found| <= i < |found| + |events| && (found + events + tail)[i] == plan[i - |found|]
  {
    PrefixBetween(events, plan, 1, 7);
    InLeft(found + events, tail, i, 8);
    InRight(found, events, i, 0);
    assert events[i - |found|] == plan[i - |found|];
  }

  /** In such a log only cleanups follow the last action. */
  lemma AfterActions(found: seq<Event>, events: seq<Event>, tail: seq<Event>, i: int)
    requires Between(tail, 8, 8) && i == |found| + |events| - 1
    ensures var log := found + events + tail;
      forall j :: i < j < |log| ==> log[j].Close? || log[j].StopCPU? || log[j].StopTrace?
  {
    var log := found + events + tail;
    forall j | i < j < |log|
      ensures log[j].Close? || log[j].StopCPU? || log[j].StopTrace?
    {
      assert log[j] == tail[j - |found| - |events|];
    }
  }

  // ---------------------------------------------------------------------
  // The plan: the calls each action makes when it succeeds

  function SignalPlan(d: Debug, sb: Sandbox): seq<Event> {
    if d.signal > 0 then [Kill(sb.pid, d.signal)] else []
  }

  function StacksPlan(d: Debug): seq<Event> {
    if d.stacks then [Stacks] else []
  }

  function HeapPlan(d: Debug): seq<Event> {
    if d.profileHeap != "" then [Create(HeapFile, d.profileHeap), HeapProfile] else []
  }

  function CpuPlan(d: Debug): seq<Event> {
    if d.profileCPU != "" then [Create(CpuFile, d.profileCPU), StartCPU] else []
  }

  function TracePlan(d: Debug): seq<Event> {
    if d.trace != "" then [Create(TraceFile, d.trace), StartTrace] else []
  }

  /** The logging request that is sent, if the flags ask for one and it is valid. */
  function SentRequest(d: Debug): Option<LoggingArgs> {
    var request := BuildLoggingArgs(d.strace, d.logLevel, d.logPackets);
    if LoggingRequested(d) && request.Success? then Some(request.value) else None
  }

  /** The logging step's call, for the request it sends. */
  function LoggingPlan(sent: Option<LoggingArgs>): seq<Event> {
    if sent.Some? then [ChangeLogging(sent.value)] else []
  }

  function DelayPlan(d: Debug): seq<Event> {
    if TimedCapture(d) then [Sleep(d.profileDelay)] else []
  }

  function PlanUntilTrace(d: Debug, sb: Sandbox): seq<Event> {
    SignalPlan(d, sb) + StacksPlan(d) + HeapPlan(d) + CpuPlan(d) + TracePlan(d)
  }

  function PlanUntilLogging(d: Debug, sb: Sandbox, sent: Option<LoggingArgs>): seq<Event> {
    PlanUntilTrace(d, sb) + LoggingPlan(sent)
  }

  /**
   * Every call the requested actions make when none of them fails, in the
   * order of the command, given the logging request sent; the command's own
   * is SentRequest(d).
   */
  function Plan(d: Debug, sb: Sandbox, sent: Option<LoggingArgs>): seq<Event> {
    PlanUntilLogging(d, sb, sent) + DelayPlan(d)
  }

  /** Each action's planned calls are of that action's phase. */
  lemma PiecePhases(d: Debug, sb: Sandbox, sent: Option<LoggingArgs>)
    ensures Between(SignalPlan(d, sb), 1, 1) && Between(StacksPlan(d), 2, 2) && Between(HeapPlan(d), 3, 3)
    ensures Between(CpuPlan(d), 4, 4) && Between(TracePlan(d), 5, 5)
    ensures Between(LoggingPlan(sent), 6, 6) && Between(DelayPlan(d), 7, 7)
  {
  }

  /** The plan is in phase order, one phase per action. */
  lemma PlanPhases(d: Debug, sb: Sandbox, sent: Option<LoggingArgs>)
    ensures Between(SignalPlan(d, sb), 1, 1) && Between(StacksPlan(d), 2, 2) && Between(HeapPlan(d), 3, 3)
    ensures Between(CpuPlan(d), 4, 4) && Between(TracePlan(d), 5, 5)
    ensures Between(LoggingPlan(sent), 6, 6) && Between(DelayPlan(d), 7, 7)
    ensures Between(PlanUntilTrace(d, sb), 1, 5) && Between(PlanUntilLogging(d, sb, sent), 1, 6)
    ensures Ordered(Plan(d, sb, sent)) && Between(Plan(d, sb, sent), 1, 7)
  {
    var s, st, h, c, t, l, w :=
      SignalPlan(d, sb), StacksPlan(d), HeapPlan(d), CpuPlan(d), TracePlan(d), LoggingPlan(sent), DelayPlan(d);
    PiecePhases(d, sb, sent);
    SinglePhase(s, 1);
    SinglePhase(st, 2);
    SinglePhase(h, 3);
    SinglePhase(c, 4);
    SinglePhase(t, 5);
    SinglePhase(l, 6);
    SinglePhase(w, 7);
    OrderedAppend(s, st, 1, 1, 2, 2);
    OrderedAppend(s + st, h, 1, 2, 3, 3);
    OrderedAppend(s + st + h, c, 1, 3, 4, 4);
    OrderedAppend(s + st + h + c, t, 1, 4, 5, 5);
    OrderedAppend(PlanUntilTrace(d, sb), l, 1, 5, 6, 6);
    OrderedAppend(PlanUntilLogging(d, sb, sent), w, 1, 6, 7, 7);
  }

  /** The only signal in the plan is the first call, to the sandbox's process. */
  lemma KillPosition(d: Debug, sb: Sandbox, sent: Option<LoggingArgs>, k: int)
    requires 0 <= k < |Plan(d, sb, sent)| && Plan(d, sb, sent)[k].Kill?
    ensures k == 0 && d.signal > 0 && Plan(d, sb, sent)[k] == Kill(sb.pid, d.signal)
  {
    var s, st, h, c, t, l, w :=
      SignalPlan(d, sb), StacksPlan(d), HeapPlan(d), CpuPlan(d), TracePlan(d), LoggingPlan(sent), DelayPlan(d);
    PiecePhases(d, sb, sent);
    assert Plan(d, sb, sent) == s + st + h + c + t + l + w;
    KillInFirst(s, st, h, c, t, l, w, k);
  }

  /** A call of the first phase in pieces of phases two to seven lies in the first piece. */
  lemma KillInFirst(s: seq<Event>, st: seq<Event>, h: seq<Event>, c: seq<Event>, t: seq<Event>, l: seq<Event>, w: seq<Event>, k: int)
    requires Between(st, 2, 2) && Between(h, 3, 3) && Between(c, 4, 4) && Between(t, 5, 5)
    requires Between(l, 6, 6) && Between(w, 7, 7)
    requires 0 <= k < |s + st + h + c + t + l + w| && (s + st + h + c + t + l + w)[k].Kill?
    ensures k < |s| && (s + st + h + c + t + l + w)[k] == s[k]
  {
    InLeft(s + st + h + c + t + l, w, k, 7);
    InLeft(s + st + h + c + t, l, k, 6);
    InLeft(s + st + h + c, t, k, 5);
    InLeft(s + st + h, c, k, 4);
    InLeft(s + st, h, k, 3);
    InLeft(s, st, k, 2);
  }

  /** The only logging change in the plan follows the trace step and is the request built from the flags. */
  lemma LoggingPosition(d: Debug, sb: Sandbox, sent: Option<LoggingArgs>, k: int)
    requires 0 <= k < |Plan(d, sb, sent)| && Plan(d, sb, sent)[k].ChangeLogging?
    ensures k == |PlanUntilTrace(d, sb)| && sent.Some? && Plan(d, sb, sent)[k] == ChangeLogging(sent.value)
  {
    var a, w := PlanUntilTrace(d, sb), DelayPlan(d);
    UntilTraceBefore(d, sb);
    PiecePhases(d, sb, sent);
    assert Plan(d, sb, sent) == a + LoggingPlan(sent) + w;
    ChangeInMiddle(a, sent, w, k);
  }

  lemma UntilTraceBefore(d: Debug, sb: Sandbox)
    ensures Between(PlanUntilTrace(d, sb), 0, 5)
  {
    PlanPhases(d, sb, None);
  }

  /** Between calls of earlier and of later phases, a logging change can only be the middle step's call. */
  lemma ChangeInMiddle(a: seq<Event>, sent: Option<LoggingArgs>, w: seq<Event>, k: int)
    requires Between(a, 0, 5) && Between(w, 7, 7)
    requires 0 <= k < |a + LoggingPlan(sent) + w| && (a + LoggingPlan(sent) + w)[k].ChangeLogging?
    ensures k == |a| && sent.Some? && (a + LoggingPlan(sent) + w)[k] == ChangeLogging(sent.value)
  {
    InLeft(a + LoggingPlan(sent), w, k, 7);
    InRight(a, LoggingPlan(sent), k, 5);
  }

  /** The only sleep in the plan is its last call, for the profile delay. */
  lemma SleepPosition(d: Debug, sb: Sandbox, sent: Option<LoggingArgs>, k: int)
    requires 0 <= k < |Plan(d, sb, sent)| && Plan(d, sb, sent)[k].Sleep?
    ensures k == |Plan(d, sb, sent)| - 1 && TimedCapture(d) && Plan(d, sb, sent)[k] == Sleep(d.profileDelay)
    ensures k == |PlanUntilLogging(d, sb, sent)|
  {
    var a := PlanUntilLogging(d, sb, sent);
    UntilLoggingBefore(d, sb, sent);
    assert Plan(d, sb, sent) == a + DelayPlan(d);
    SleepLast(a, d, k);
  }

  /** After calls of the phases before the delay, a sleep can only be the delay's one call. */
  lemma SleepLast(a: seq<Event>, d: Debug, k: int)
    requires Between(a, 0, 6) && 0 <= k < |a + DelayPlan(d)| && (a + DelayPlan(d))[k].Sleep?
    ensures k == |a| && k == |a + DelayPlan(d)| - 1 && TimedCapture(d) && (a + DelayPlan(d))[k] == Sleep(d.profileDelay)
  {
    InRight(a, DelayPlan(d), k, 6);
  }

  lemma UntilLoggingBefore(d: Debug, sb: Sandbox, sent: Option<LoggingArgs>)
    ensures Between(PlanUntilLogging(d, sb, sent), 0, 6)
  {
    PlanPhases(d, sb, sent);
  }

  // ---------------------------------------------------------------------
  // The actions against the plan

  // The conditions under which each action succeeds.
  predicate SignalOk(d: Debug, env: Env) {
    d.signal > 0 ==> env.killOk
  }

  predicate StacksOk(d: Debug, env: Env) {
    d.stacks ==> env.stacksOk
  }

  predicate HeapOk(d: Debug, env: Env) {
    d.profileHeap != "" ==> d.profileHeap in env.creatable && env.heapOk
  }

  predicate CpuOk(d: Debug, env: Env) {
    d.profileCPU != "" ==> d.profileCPU in env.creatable && env.startCpuOk
  }

  predicate TraceOk(d: Debug, env: Env) {
    d.trace != "" ==> d.trace in env.creatable && env.startTraceOk
  }

  predicate LoggingOk(d: Debug, env: Env) {
    LoggingRequested(d) ==> BuildLoggingArgs(d.strace, d.logLevel, d.logPackets).Success? && env.changeLoggingOk
  }

  /** Every requested action can succeed: its calls succeed, its file can be created, its logging flags are valid. */
  predicate ActionsSucceed(d: Debug, env: Env) {
    SignalOk(d, env) && StacksOk(d, env) && HeapOk(d, env) && CpuOk(d, env) && TraceOk(d, env) && LoggingOk(d, env)
  }

  /** The calls of e are a prefix of p, and all of p when e succeeds. */
  predicate Follows(e: Effect, p: seq<Event>) {
    e.events <= p && (Succeeds(e) ==> e.events == p)
  }

  lemma ThenFollows(a: Effect, b: Effect, p: seq<Event>, q: seq<Event>)
    requires Follows(a, p) && Follows(b, q)
    ensures Follows(Then(a, b), p + q)
    ensures Succeeds(Then(a, b)) <==> Succeeds(a) && Succeeds(b)
    ensures !Succeeds(Then(a, b)) ==> Then(a, b).events <= p || Succeeds(a)
  {
    if Succeeds(a) {
      var n := |b.events|;
      assert (p + q)[..|p| + n] == p + b.events by {
        assert q[..n] == b.events;
      }
    } else {
      assert (p + q)[..|a.events|] == a.events by {
        assert p[..|a.events|] == a.events;
      }
    }
  }

  /** The signal and the stack dump make a prefix of their planned calls, all of them exactly when they succeed. */
  lemma CallStepsFollow(d: Debug, env: Env, sb: Sandbox)
    ensures Follows(SignalEffect(d, env, sb), SignalPlan(d, sb)) && (Succeeds(SignalEffect(d, env, sb)) <==> SignalOk(d, env))
    ensures Follows(StacksEffect(d, env), StacksPlan(d)) && (Succeeds(StacksEffect(d, env)) <==> StacksOk(d, env))
  {
  }

  /** Each capture makes a prefix of its planned calls, all of them exactly when it succeeds. */
  lemma CaptureStepsFollow(d: Debug, env: Env)
    ensures Follows(HeapEffect(d, env), HeapPlan(d)) && (Succeeds(HeapEffect(d, env)) <==> HeapOk(d, env))
    ensures Follows(CpuEffect(d, env), CpuPlan(d)) && (Succeeds(CpuEffect(d, env)) <==> CpuOk(d, env))
    ensures Follows(TraceEffect(d, env), TracePlan(d)) && (Succeeds(TraceEffect(d, env)) <==> TraceOk(d, env))
  {
  }

  /** The logging step sends the request or nothing, and succeeds exactly when it is valid and accepted; the delay always succeeds. */
  lemma LoggingStepFollows(d: Debug, env: Env)
    ensures Follows(LoggingEffect(d, env), LoggingPlan(SentRequest(d))) && (Succeeds(LoggingEffect(d, env)) <==> LoggingOk(d, env))
    ensures Follows(DelayEffect(d), DelayPlan(d)) && Succeeds(DelayEffect(d))
  {
  }

  /**
   * The actions make the calls of the plan in its order, stopping at the
   * first failure; they all succeed exactly when every requested action can,
   * and the delay is reached only then.
   */
  lemma ActionsFollowPlan(d: Debug, env: Env, sb: Sandbox)
    ensures Follows(UntilTrace(d, env, sb), PlanUntilTrace(d, sb))
    ensures Follows(UntilLogging(d, env, sb), PlanUntilLogging(d, sb, SentRequest(d)))
    ensures Follows(Main(d, env, sb), Plan(d, sb, SentRequest(d)))
    ensures Succeeds(Main(d, env, sb)) <==> ActionsSucceed(d, env)
    ensures Succeeds(Main(d, env, sb)) <==> Succeeds(UntilLogging(d, env, sb))
    ensures !Succeeds(Main(d, env, sb)) ==> Main(d, env, sb).events <= PlanUntilLogging(d, sb, SentRequest(d))
  {
    CallStepsFollow(d, env, sb);
    CaptureStepsFollow(d, env);
    LoggingStepFollows(d, env);
    var s, st, h, c := SignalPlan(d, sb), StacksPlan(d), HeapPlan(d), CpuPlan(d);
    ThenFollows(SignalEffect(d, env, sb), StacksEffect(d, env), s, st);
    ThenFollows(UntilStacks(d, env, sb), HeapEffect(d, env), s + st, h);
    ThenFollows(UntilHeap(d, env, sb), CpuEffect(d, env), s + st + h, c);
    ThenFollows(UntilCpu(d, env, sb), TraceEffect(d, env), s + st + h + c, TracePlan(d));
    ThenFollows(UntilTrace(d, env, sb), LoggingEffect(d, env), PlanUntilTrace(d, sb), LoggingPlan(SentRequest(d)));
    ThenFollows(UntilLogging(d, env, sb), DelayEffect(d), PlanUntilLogging(d, sb, SentRequest(d)), DelayPlan(d));
  }

  lemma ThenHead(a: Effect, b: Effect)
    requires a.events != []
    ensures Then(a, b).events != [] && Then(a, b).events[0] == a.events[0]
  {
  }

  /** A positive signal is the first call of the actions. */
  lemma SignalFirst(d: Debug, env: Env, sb: Sandbox)
    requires d.signal > 0
    ensures Main(d, env, sb).events != [] && Main(d, env, sb).events[0] == Kill(sb.pid, d.signal)
  {
    ThenHead(SignalEffect(d, env, sb), StacksEffect(d, env));
    ThenHead(UntilStacks(d, env, sb), HeapEffect(d, env));
    ThenHead(UntilHeap(d, env, sb), CpuEffect(d, env));
    ThenHead(UntilCpu(d, env, sb), TraceEffect(d, env));
    ThenHead(UntilTrace(d, env, sb), LoggingEffect(d, env));
    ThenHead(UntilLogging(d, env, sb), DelayEffect(d));
  }

  // ---------------------------------------------------------------------
  // A run, once the sandbox is found

  /** The lookups of a resolution are all lookups. */
  lemma LookupsOnly(d: Debug, args: seq<string>, env: Env)
    ensures Between(Resolve(d, args, env).events, 0, 0)
  {
  }

  /** A cleanup's calls are all cleanup calls. */
  lemma {:induction false} UnwindIsCleanup(stack: seq<Cleanup>, env: Env)
    ensures Between(Unwind(stack, env).events, 8, 8)
    decreases |stack|
  {
    if stack != [] {
      UnwindIsCleanup(stack[..|stack| - 1], env);
    }
  }

  /** Once the sandbox is found, the run is the lookups, the actions and the cleanups of what they registered. */
  lemma RunResolved(d: Debug, args: seq<string>, env: Env, sb: Sandbox, found: seq<Event>)
    requires Resolve(d, args, env) == Resolved(sb, found)
    ensures var m := Main(d, env, sb); var u := Unwind(m.deferred, env);
      Run(d, args, env) == Outcome(Status(m.failure, u), found + m.events + u.events)
  {
  }

  /** A found sandbox's run is laid out as lookups, a prefix of the planned actions, then cleanup calls. */
  lemma RunShape(d: Debug, args: seq<string>, env: Env, sb: Sandbox, found: seq<Event>)
    requires Resolve(d, args, env) == Resolved(sb, found)
    ensures var m := Main(d, env, sb); var u := Unwind(m.deferred, env);
      Run(d, args, env) == Outcome(Status(m.failure, u), found + m.events + u.events)
      && Layout(found, m.events, u.events, Plan(d, sb, SentRequest(d))) && Follows(m, Plan(d, sb, SentRequest(d)))
  {
    LookupsOnly(d, args, env);
    UnwindIsCleanup(Main(d, env, sb).deferred, env);
    ActionsFollowPlan(d, env, sb);
    PlanPhases(d, sb, SentRequest(d));
  }

  /**
   * The calls of a run come in phase order: lookups, then the actions in their
   * fixed order (signal, stacks, heap, CPU, trace, logging), then the delay,
   * then the cleanups.
   */
  lemma RunOrdered(d: Debug, args: seq<string>, env: Env)
    ensures Ordered(Run(d, args, env).log)
  {
    var r := Resolve(d, args, env);
    LookupsOnly(d, args, env);
    SinglePhase(r.events, 0);
    if r.Resolved? {
      var m := Main(d, env, r.sandbox);
      var u := Unwind(m.deferred, env);
      RunShape(d, args, env, r.sandbox, r.events);
      PlanPhases(d, r.sandbox, SentRequest(d));
      PrefixOrdered(m.events, Plan(d, r.sandbox, SentRequest(d)));
      PrefixBetween(m.events, Plan(d, r.sandbox, SentRequest(d)), 1, 7);
      SinglePhase(u.events, 8);
      OrderedAppend(r.events, m.events, 0, 0, 1, 7);
      OrderedAppend(r.events + m.events, u.events, 0, 7, 8, 8);
    }
  }

  // ---------------------------------------------------------------------
  // Resolution

  /** A usage error is exactly a wrong argument count, and it is reported before any lookup. */
  lemma UsageErrorIffWrongArgCount(d: Debug, args: seq<string>, env: Env)
    ensures Run(d, args, env).exit == ExitUsageError <==> WrongArgCount(d, args)
    ensures WrongArgCount(d, args) ==> Run(d, args, env).log == []
  {
  }

  /** When no running sandbox is found, the command ends with the lookups it made and nothing else. */
  lemma RejectedBeforeActions(d: Debug, args: seq<string>, env: Env)
    requires Resolve(d, args, env).Rejected?
    ensures Run(d, args, env) == Outcome(Resolve(d, args, env).exit, Resolve(d, args, env).events)
    ensures forall i :: 0 <= i < |Run(d, args, env).log| ==>
      Run(d, args, env).log[i].List? || Run(d, args, env).log[i].Load?
  {
    LookupsOnly(d, args, env);
  }

  /** A container without a sandbox, or whose sandbox is not running, is a failure after its one lookup. */
  lemma NotRunningStops(d: Debug, id: string, env: Env)
    requires d.pid == 0 && id in env.containers
    requires var c := env.containers[id]; c.sandbox.None? || !c.sandbox.value.running
    ensures Run(d, [id], env) == Outcome(ExitFailure(NotRunning), [Load(id)])
  {
  }

  /** The lookups of a scan: List, then a Load of each of the first n ids, in list order. */
  predicate ScanLog(events: seq<Event>, ids: seq<string>, n: nat)
    requires n <= |ids|
  {
    |events| == n + 1 && events[0] == List && forall i :: 0 <= i < n ==> events[i + 1] == Load(ids[i])
  }

  /** The ids before position j all load and belong to another sandbox pid. */
  predicate PassedOver(ids: seq<string>, pid: int, containers: map<string, Container>, j: nat)
    requires j <= |ids|
  {
    forall i :: 0 <= i < j ==> ids[i] in containers && containers[ids[i]].sandboxPid != pid
  }

  /** The pid scan takes the first container with that sandbox pid, having loaded it and every id before it. */
  lemma ScanFirstMatch(d: Debug, env: Env, j: nat)
    requires d.pid != 0 && env.list.Some? && j < |env.list.value|
    requires var ids := env.list.value;
      PassedOver(ids, d.pid, env.containers, j)
      && ids[j] in env.containers && env.containers[ids[j]].sandboxPid == d.pid
    ensures var ids := env.list.value; var r := Resolve(d, [], env);
      ScanLog(r.events, ids, j + 1) &&
      (r.Resolved? <==> env.containers[ids[j]].sandbox.Some? && env.containers[ids[j]].sandbox.value.running) &&
      (r.Resolved? ==> r.sandbox == env.containers[ids[j]].sandbox.value)
  {
    var ids := env.list.value;
    var k := ScanStop(ids, d.pid, env.containers);
    assert k == j;
  }

  /** A load failure during the scan ends it at once, with the failing id, before later ids are tried. */
  lemma ScanLoadFailure(d: Debug, env: Env, j: nat)
    requires d.pid != 0 && env.list.Some? && j < |env.list.value|
    requires var ids := env.list.value; PassedOver(ids, d.pid, env.containers, j) && ids[j] !in env.containers
    ensures var ids := env.list.value; var r := Resolve(d, [], env);
      r.Rejected? && r.exit == ExitFailure(LoadFailed(ids[j])) && ScanLog(r.events, ids, j + 1)
  {
    var ids := env.list.value;
    var k := ScanStop(ids, d.pid, env.containers);
    assert k == j;
  }

  /** When every id loads and none has the pid, the pid is reported not found after all of them were loaded. */
  lemma ScanNotFound(d: Debug, env: Env)
    requires d.pid != 0 && env.list.Some?
    requires PassedOver(env.list.value, d.pid, env.containers, |env.list.value|)
    ensures var ids := env.list.value; var r := Resolve(d, [], env);
      r.Rejected? && r.exit == ExitFailure(PidNotFound(d.pid)) && ScanLog(r.events, ids, |ids|)
  {
    var ids := env.list.value;
    var k := ScanStop(ids, d.pid, env.containers);
    assert k == |ids|;
  }

  // ---------------------------------------------------------------------
  // The signal

  /** The plan's only signal, if any, is its first call: the positive signal to the process. */
  predicate KillOnlyFirst(plan: seq<Event>, pid: int, signal: int) {
    forall k :: 0 <= k < |plan| && plan[k].Kill? ==> k == 0 && signal > 0 && plan[k] == Kill(pid, signal)
  }

  lemma PlanKillsFirst(d: Debug, sb: Sandbox, sent: Option<LoggingArgs>)
    ensures KillOnlyFirst(Plan(d, sb, sent), sb.pid, d.signal)
  {
    forall k | 0 <= k < |Plan(d, sb, sent)| && Plan(d, sb, sent)[k].Kill?
      ensures k == 0 && d.signal > 0 && Plan(d, sb, sent)[k] == Kill(sb.pid, d.signal)
    {
      KillPosition(d, sb, sent, k);
    }
  }

  /** In a log of lookups, a prefix of the planned actions and cleanups, a signal is the first action. */
  lemma KillAt(plan: seq<Event>, pid: int, signal: int, found: seq<Event>, events: seq<Event>, tail: seq<Event>, i: int)
    requires Layout(found, events, tail, plan) && KillOnlyFirst(plan, pid, signal)
    requires 0 <= i < |found + events + tail| && (found + events + tail)[i].Kill?
    ensures i == |found| && signal > 0 && (found + events + tail)[i] == Kill(pid, signal)
  {
    Locate(found, events, tail, plan, i);
  }

  /**
   * In such a log the only signal is the first action, and it is there when
   * the signal is positive and the actions begin with it.
   */
  lemma KillsInLog(d: Debug, sb: Sandbox, sent: Option<LoggingArgs>, found: seq<Event>, events: seq<Event>, tail: seq<Event>)
    requires Layout(found, events, tail, Plan(d, sb, sent))
    requires d.signal > 0 ==> events != [] && events[0] == Kill(sb.pid, d.signal)
    ensures var log := found + events + tail;
      (exists i :: 0 <= i < |log| && log[i].Kill?) <==> d.signal > 0
    ensures var log := found + events + tail;
      forall i :: 0 <= i < |log| && log[i].Kill? ==> i == |found| && log[i] == Kill(sb.pid, d.signal)
  {
    var log := found + events + tail;
    PlanKillsFirst(d, sb, sent);
    forall i | 0 <= i < |log| && log[i].Kill?
      ensures i == |found| && d.signal > 0 && log[i] == Kill(sb.pid, d.signal)
    {
      KillAt(Plan(d, sb, sent), sb.pid, d.signal, found, events, tail, i);
    }
    if d.signal > 0 {
      assert log[|found|] == events[0];
    }
  }

  /** The signal is delivered, to the sandbox's process, exactly when it is positive, and then once, as the first action. */
  lemma SignalOnceIffPositive(d: Debug, args: seq<string>, env: Env, sb: Sandbox, found: seq<Event>)
    requires Resolve(d, args, env) == Resolved(sb, found)
    ensures var log := Run(d, args, env).log;
      (exists i :: 0 <= i < |log| && log[i].Kill?) <==> d.signal > 0
    ensures var log := Run(d, args, env).log;
      forall i :: 0 <= i < |log| && log[i].Kill? ==> i == |found| && log[i] == Kill(sb.pid, d.signal)
  {
    RunShape(d, args, env, sb, found);
    var m := Main(d, env, sb);
    if d.signal > 0 {
      SignalFirst(d, env, sb);
    }
    KillsInLog(d, sb, SentRequest(d), found, m.events, Unwind(m.deferred, env).events);
  }

  /** With the flag defaults a found sandbox is only looked up: no signal, no action, no delay. */
  lemma DefaultsOnlyLookUp(args: seq<string>, env: Env)
    requires Resolve(Defaults(), args, env).Resolved?
    ensures Run(Defaults(), args, env) == Outcome(ExitSuccess, Resolve(Defaults(), args, env).events)
  {
  }

  // ---------------------------------------------------------------------
  // The cleanups

  /** The cleanup registered for a file of that kind. */
  function CleanupFor(kind: FileKind): Cleanup {
    match kind
    case HeapFile => CloseHeap
    case CpuFile => FinishCpu
    case TraceFile => FinishTrace
  }

  /** The cleanups for the files the given calls open, in the order they are opened. */
  function Registered(events: seq<Event>, env: Env): seq<Cleanup> {
    if events == [] then []
    else
      var opens := if events[0].Create? && events[0].path in env.creatable then [CleanupFor(events[0].kind)] else [];
      opens + Registered(events[1..], env)
  }

  lemma {:induction false} RegisteredAppend(a: seq<Event>, b: seq<Event>, env: Env)
    ensures Registered(a + b, env) == Registered(a, env) + Registered(b, env)
  {
    if a != [] {
      assert (a + b)[0] == a[0] && (a + b)[1..] == a[1..] + b;
      RegisteredAppend(a[1..], b, env);
    } else {
      assert a + b == b;
    }
  }

  /** A single call registers the cleanup of the file it opens, if any. */
  lemma RegisteredSingle(x: Event, env: Env)
    ensures Registered([x], env) == if x.Create? && x.path in env.creatable then [CleanupFor(x.kind)] else []
  {
    assert [x][1..] == [];
  }

  /** An opening call followed by a call that opens nothing registers one cleanup at most. */
  lemma RegisteredPair(x: Event, y: Event, env: Env)
    requires !y.Create?
    ensures Registered([x, y], env) == Registered([x], env)
  {
    RegisteredAppend([x], [y], env);
    assert [x] + [y] == [x, y];
    RegisteredSingle(y, env);
  }

  /** An effect has registered a cleanup for each file it opened, in order, and no other. */
  predicate Tracks(e: Effect, env: Env) {
    e.deferred == Registered(e.events, env)
  }

  lemma ThenTracks(a: Effect, b: Effect, env: Env)
    requires Tracks(a, env) && Tracks(b, env)
    ensures Tracks(Then(a, b), env)
  {
    RegisteredAppend(a.events, b.events, env);
  }

  /** The signal, the stack dump, the logging change and the delay open no file. */
  lemma CallsTrack(d: Debug, env: Env, sb: Sandbox)
    ensures Tracks(SignalEffect(d, env, sb), env) && Tracks(StacksEffect(d, env), env)
    ensures Tracks(LoggingEffect(d, env), env) && Tracks(DelayEffect(d), env)
  {
    RegisteredSingle(Kill(sb.pid, d.signal), env);
    RegisteredSingle(Stacks, env);
    RegisteredSingle(Sleep(d.profileDelay), env);
    var request := BuildLoggingArgs(d.strace, d.logLevel, d.logPackets);
    if request.Success? {
      RegisteredSingle(ChangeLogging(request.value), env);
    }
  }

  /** Each capture registers its cleanup exactly when its file was created. */
  lemma CapturesTrack(d: Debug, env: Env)
    ensures Tracks(HeapEffect(d, env), env) && Tracks(CpuEffect(d, env), env) && Tracks(TraceEffect(d, env), env)
  {
    HeapTracks(d, env);
    CpuTracks(d, env);
    TraceTracks(d, env);
  }

  lemma HeapTracks(d: Debug, env: Env)
    ensures Tracks(HeapEffect(d, env), env)
  {
    CaptureTracks(HeapFile, d.profileHeap, HeapProfile, env);
  }

  lemma CpuTracks(d: Debug, env: Env)
    ensures Tracks(CpuEffect(d, env), env)
  {
    CaptureTracks(CpuFile, d.profileCPU, StartCPU, env);
  }

  lemma TraceTracks(d: Debug, env: Env)
    ensures Tracks(TraceEffect(d, env), env)
  {
    CaptureTracks(TraceFile, d.trace, StartTrace, env);
  }

  lemma CaptureTracks(kind: FileKind, path: string, start: Event, env: Env)
    requires !start.Create?
    ensures Registered([Create(kind, path)], env) == if path in env.creatable then [CleanupFor(kind)] else []
    ensures Registered([Create(kind, path), start], env) == Registered([Create(kind, path)], env)
  {
    RegisteredSingle(Create(kind, path), env);
    RegisteredPair(Create(kind, path), start, env);
  }

  /** A cleanup is registered exactly for each file the actions opened, in the order they were opened. */
  lemma CleanupPerOpenedFile(d: Debug, env: Env, sb: Sandbox)
    ensures Main(d, env, sb).deferred == Registered(Main(d, env, sb).events, env)
  {
    CallsTrack(d, env, sb);
    CapturesTrack(d, env);
    ThenTracks(SignalEffect(d, env, sb), StacksEffect(d, env), env);
    ThenTracks(UntilStacks(d, env, sb), HeapEffect(d, env), env);
    ThenTracks(UntilHeap(d, env, sb), CpuEffect(d, env), env);
    ThenTracks(UntilCpu(d, env, sb), TraceEffect(d, env), env);
    ThenTracks(UntilTrace(d, env, sb), LoggingEffect(d, env), env);
    ThenTracks(UntilLogging(d, env, sb), DelayEffect(d), env);
  }

  function Reversed<T>(s: seq<T>): seq<T> {
    if s == [] then [] else Reversed(s[1..]) + [s[0]]
  }

  /** The calls of the given cleanups when each runs in turn, first to last, and none fails. */
  function FinishAll(cs: seq<Cleanup>, env: Env): seq<Event> {
    if cs == [] then [] else Finish(cs[0], env).events + FinishAll(cs[1..], env)
  }

  lemma {:induction false} ReversedSnoc<T>(s: seq<T>, x: T)
    ensures Reversed(s + [x]) == [x] + Reversed(s)
  {
    if s != [] {
      assert (s + [x])[1..] == s[1..] + [x];
      ReversedSnoc(s[1..], x);
    }
  }

  /** When no stop fails, the cleanups run last registered first, each once. */
  lemma {:induction false} UnwindLifo(stack: seq<Cleanup>, env: Env)
    requires Unwind(stack, env).fatal.None?
    ensures Unwind(stack, env).events == FinishAll(Reversed(stack), env)
    decreases |stack|
  {
    if stack != [] {
      var rest, top := stack[..|stack| - 1], stack[|stack| - 1];
      assert stack == rest + [top];
      ReversedSnoc(rest, top);
      UnwindLifo(rest, env);
      assert ([top] + Reversed(rest))[1..] == Reversed(rest);
    }
  }

  /** A cleanup stack ends the process exactly when one of its stops fails, and then that stop is the last call. */
  lemma {:induction false} UnwindFatal(stack: seq<Cleanup>, env: Env)
    ensures Unwind(stack, env).fatal.Some? <==> exists i :: 0 <= i < |stack| && Finish(stack[i], env).fatal.Some?
    ensures Unwind(stack, env).fatal.Some? ==> Unwind(stack, env).events != []
    ensures Unwind(stack, env).fatal == Some(StopCpuFailed) ==>
      !env.stopCpuOk && Unwind(stack, env).events != [] && Unwind(stack, env).events[|Unwind(stack, env).events| - 1] == StopCPU
    ensures Unwind(stack, env).fatal == Some(StopTraceFailed) ==>
      !env.stopTraceOk && Unwind(stack, env).events != [] && Unwind(stack, env).events[|Unwind(stack, env).events| - 1] == StopTrace
    decreases |stack|
  {
    if stack != [] {
      var rest := stack[..|stack| - 1];
      UnwindFatal(rest, env);
      if Finish(stack[|stack| - 1], env).fatal.None? {
        if exists i :: 0 <= i < |stack| && Finish(stack[i], env).fatal.Some? {
          var i :| 0 <= i < |stack| && Finish(stack[i], env).fatal.Some?;
          assert rest[i] == stack[i];
        }
        if Unwind(rest, env).fatal.Some? {
          var i :| 0 <= i < |rest| && Finish(rest[i], env).fatal.Some?;
          assert stack[i] == rest[i];
        }
      }
    }
  }

  lemma LastOfConcat(a: seq<Event>, b: seq<Event>)
    requires b != []
    ensures (a + b)[|a + b| - 1] == b[|b| - 1]
  {
  }

  /**
   * Every file the command opened gets its cleanup, last opened first, unless
   * a stop failure ends the process first: the cleanups run on every return
   * path after they are registered.
   */
  lemma OpenedFilesCleanedUp(d: Debug, args: seq<string>, env: Env, sb: Sandbox, found: seq<Event>)
    requires Resolve(d, args, env) == Resolved(sb, found)
    requires !Run(d, args, env).exit.Fatal?
    ensures var m := Main(d, env, sb);
      Run(d, args, env).log == found + m.events + FinishAll(Reversed(Registered(m.events, env)), env)
  {
    var m := Main(d, env, sb);
    RunShape(d, args, env, sb, found);
    CleanupPerOpenedFile(d, env, sb);
    UnwindLifo(m.deferred, env);
  }

  /** The process ends only on a failed stop, which is then the last call the command made. */
  lemma FatalOnlyFromStop(d: Debug, args: seq<string>, env: Env)
    requires Run(d, args, env).exit.Fatal?
    ensures var log := Run(d, args, env).log;
      log != [] &&
      (Run(d, args, env).exit == Fatal(StopCpuFailed) ==> !env.stopCpuOk && log[|log| - 1] == StopCPU) &&
      (Run(d, args, env).exit == Fatal(StopTraceFailed) ==> !env.stopTraceOk && log[|log| - 1] == StopTrace)
  {
    var r := Resolve(d, args, env);
    assert r.Resolved?;
    var m := Main(d, env, r.sandbox);
    var u := Unwind(m.deferred, env);
    assert Run(d, args, env) == Outcome(Status(m.failure, u), r.events + m.events + u.events);
    assert u.fatal.Some?;
    UnwindFatal(m.deferred, env);
    LastOfConcat(r.events + m.events, u.events);
  }

  /** The cleanups a fully successful run registers, in order. */
  function SuccessStack(d: Debug): seq<Cleanup> {
    (if d.profileHeap != "" then [CloseHeap] else [])
    + (if d.profileCPU != "" then [FinishCpu] else [])
    + (if d.trace != "" then [FinishTrace] else [])
  }

  /** The cleanup calls of a fully successful run: trace, then CPU, then heap, each file closed before its capture stops. */
  function Teardown(d: Debug): seq<Event> {
    (if d.trace != "" then [Close(TraceFile), StopTrace] else [])
    + (if d.profileCPU != "" then [Close(CpuFile), StopCPU] else [])
    + (if d.profileHeap != "" then [Close(HeapFile)] else [])
  }

  /** The cleanups one step's planned calls register when it succeeds. */
  lemma CapturesRegister(d: Debug, env: Env)
    requires HeapOk(d, env) && CpuOk(d, env) && TraceOk(d, env)
    ensures Registered(HeapPlan(d), env) == (if d.profileHeap != "" then [CloseHeap] else [])
    ensures Registered(CpuPlan(d), env) == (if d.profileCPU != "" then [FinishCpu] else [])
    ensures Registered(TracePlan(d), env) == (if d.trace != "" then [FinishTrace] else [])
  {
    HeapRegisters(d, env);
    CpuRegisters(d, env);
    TraceRegisters(d, env);
  }

  lemma HeapRegisters(d: Debug, env: Env)
    requires HeapOk(d, env)
    ensures Registered(HeapPlan(d), env) == (if d.profileHeap != "" then [CloseHeap] else [])
  {
    if d.profileHeap != "" {
      CaptureTracks(HeapFile, d.profileHeap, HeapProfile, env);
    }
  }

  lemma CpuRegisters(d: Debug, env: Env)
    requires CpuOk(d, env)
    ensures Registered(CpuPlan(d), env) == (if d.profileCPU != "" then [FinishCpu] else [])
  {
    if d.profileCPU != "" {
      CaptureTracks(CpuFile, d.profileCPU, StartCPU, env);
    }
  }

  lemma TraceRegisters(d: Debug, env: Env)
    requires TraceOk(d, env)
    ensures Registered(TracePlan(d), env) == (if d.trace != "" then [FinishTrace] else [])
  {
    if d.trace != "" {
      CaptureTracks(TraceFile, d.trace, StartTrace, env);
    }
  }

  /** The signal, the stack dump, the logging change and the delay register nothing. */
  lemma CallsRegisterNothing(d: Debug, env: Env, sb: Sandbox, sent: Option<LoggingArgs>)
    ensures Registered(SignalPlan(d, sb), env) == [] && Registered(StacksPlan(d), env) == []
    ensures Registered(LoggingPlan(sent), env) == [] && Registered(DelayPlan(d), env) == []
  {
    RegisteredSingle(Kill(sb.pid, d.signal), env);
    RegisteredSingle(Stacks, env);
    RegisteredSingle(Sleep(d.profileDelay), env);
    if sent.Some? {
      RegisteredSingle(ChangeLogging(sent.value), env);
    }
  }

  lemma UntilTraceRegisters(d: Debug, env: Env, sb: Sandbox)
    requires HeapOk(d, env) && CpuOk(d, env) && TraceOk(d, env)
    ensures Registered(PlanUntilTrace(d, sb), env) == SuccessStack(d)
  {
    var s, st, h, c, t := SignalPlan(d, sb), StacksPlan(d), HeapPlan(d), CpuPlan(d), TracePlan(d);
    var hs, cs, ts := Registered(h, env), Registered(c, env), Registered(t, env);
    CapturesRegister(d, env);
    CallsRegisterNothing(d, env, sb, None);
    assert SuccessStack(d) == hs + cs + ts;
    RegisteredAppend(s, st, env);
    RegisteredAppend(s + st, h, env);
    assert Registered(s + st + h, env) == hs;
    RegisteredAppend(s + st + h, c, env);
    RegisteredAppend(s + st + h + c, t, env);
  }

  /** A fully successful run registers the heap, CPU and trace cleanups, in that order, for the files requested. */
  lemma SuccessRegisters(d: Debug, env: Env, sb: Sandbox, sent: Option<LoggingArgs>)
    requires HeapOk(d, env) && CpuOk(d, env) && TraceOk(d, env)
    ensures Registered(Plan(d, sb, sent), env) == SuccessStack(d)
  {
    UntilTraceRegisters(d, env, sb);
    CallsRegisterNothing(d, env, sb, sent);
    RegisteredAppend(PlanUntilTrace(d, sb), LoggingPlan(sent), env);
    RegisteredAppend(PlanUntilLogging(d, sb, sent), DelayPlan(d), env);
  }

  /** Running one more cleanup first: it ends the process if it fails, else the cleanups below follow it. */
  lemma UnwindPush(stack: seq<Cleanup>, c: Cleanup, env: Env)
    ensures Unwind(stack + [c], env) ==
      if Finish(c, env).fatal.Some? then Finish(c, env)
      else Unwinding(Finish(c, env).events + Unwind(stack, env).events, Unwind(stack, env).fatal)
  {
    assert (stack + [c])[..|stack|] == stack;
  }

  /** The cleanups of a fully successful run end the process exactly when a stop fails, and otherwise make the teardown calls. */
  lemma SuccessUnwinds(d: Debug, env: Env)
    ensures Unwind(SuccessStack(d), env).fatal.None? <==>
      (d.profileCPU != "" ==> env.stopCpuOk) && (d.trace != "" ==> env.stopTraceOk)
    ensures Unwind(SuccessStack(d), env).fatal.None? ==> Unwind(SuccessStack(d), env).events == Teardown(d)
  {
    var cpu, trace := d.profileCPU != "", d.trace != "";
    var hc := (if d.profileHeap != "" then [CloseHeap] else []) + (if cpu then [FinishCpu] else []);
    var below: seq<Event> :=
      (if cpu then [Close(CpuFile), StopCPU] else []) + (if d.profileHeap != "" then [Close(HeapFile)] else []);
    var traceEv: seq<Event> := if trace then [Close(TraceFile), StopTrace] else [];
    assert SuccessStack(d) == hc + (if trace then [FinishTrace] else []);
    assert Teardown(d) == traceEv + below;
    HeapCpuUnwind(d, env);
    PushStep(hc, trace, FinishTrace, env, cpu ==> env.stopCpuOk, below, env.stopTraceOk, [Close(TraceFile), StopTrace]);
  }

  /** The heap and CPU cleanups alone end the process exactly when the CPU stop fails, and otherwise stop the CPU profile first. */
  lemma HeapCpuUnwind(d: Debug, env: Env)
    ensures Unwinds((if d.profileHeap != "" then [CloseHeap] else []) + (if d.profileCPU != "" then [FinishCpu] else []), env,
      d.profileCPU != "" ==> env.stopCpuOk,
      (if d.profileCPU != "" then [Close(CpuFile), StopCPU] else []) + (if d.profileHeap != "" then [Close(HeapFile)] else []))
  {
    var heap := d.profileHeap != "";
    var h: seq<Cleanup> := if heap then [CloseHeap] else [];
    var heapEv: seq<Event> := if heap then [Close(HeapFile)] else [];
    PushStep([], heap, CloseHeap, env, true, [], true, [Close(HeapFile)]);
    assert [] + h == h && heapEv + [] == heapEv;
    PushStep(h, d.profileCPU != "", FinishCpu, env, true, heapEv, env.stopCpuOk, [Close(CpuFile), StopCPU]);
  }

  /** A stack whose unwinding ends the process exactly when ok does not hold, making the calls ev otherwise. */
  predicate Unwinds(stack: seq<Cleanup>, env: Env, ok: bool, ev: seq<Event>) {
    (Unwind(stack, env).fatal.None? <==> ok) && (ok ==> Unwind(stack, env).events == ev)
  }

  /** Pushing a cleanup only when asked: on top of the stack's own, its calls come first, and its failure ends the process. */
  lemma PushStep(stack: seq<Cleanup>, on: bool, c: Cleanup, env: Env, ok: bool, ev: seq<Event>, cok: bool, cev: seq<Event>)
    requires Unwinds(stack, env, ok, ev)
    requires Finish(c, env).events == cev && (Finish(c, env).fatal.None? <==> cok)
    ensures Unwinds(stack + (if on then [c] else []), env, ok && (on ==> cok), (if on then cev else []) + ev)
  {
    if on {
      UnwindPush(stack, c, env);
    } else {
      assert stack + [] == stack && [] + ev == ev;
    }
  }

  /** Every requested action succeeding: all the planned calls are made, and the cleanups of the requested files registered. */
  lemma SuccessfulActions(d: Debug, env: Env, sb: Sandbox)
    requires ActionsSucceed(d, env)
    ensures Succeeds(Main(d, env, sb)) && Main(d, env, sb).events == Plan(d, sb, SentRequest(d))
    ensures Main(d, env, sb).deferred == SuccessStack(d)
  {
    ActionsFollowPlan(d, env, sb);
    CleanupPerOpenedFile(d, env, sb);
    SuccessRegisters(d, env, sb, SentRequest(d));
  }

  /** A resolution that finds no sandbox never ends in success. */
  lemma RejectedFails(d: Debug, args: seq<string>, env: Env)
    requires Resolve(d, args, env).Rejected?
    ensures Resolve(d, args, env).exit != ExitSuccess
  {
  }

  /**
   * The command succeeds exactly when the sandbox is found, every requested
   * action succeeds and every started capture stops; it then makes all the
   * planned calls in order and cleans up trace, then CPU, then heap.
   */
  lemma SuccessPath(d: Debug, args: seq<string>, env: Env)
    ensures Run(d, args, env).exit == ExitSuccess <==>
      && Resolve(d, args, env).Resolved?
      && ActionsSucceed(d, env)
      && (d.profileCPU != "" ==> env.stopCpuOk)
      && (d.trace != "" ==> env.stopTraceOk)
    ensures Run(d, args, env).exit == ExitSuccess ==>
      Run(d, args, env).log == Resolve(d, args, env).events + Plan(d, Resolve(d, args, env).sandbox, SentRequest(d)) + Teardown(d)
  {
    var r := Resolve(d, args, env);
    if r.Resolved? {
      var sb := r.sandbox;
      var m := Main(d, env, sb);
      var u := Unwind(m.deferred, env);
      assert Run(d, args, env) == Outcome(Status(m.failure, u), r.events + m.events + u.events);
      ActionsFollowPlan(d, env, sb);
      if ActionsSucceed(d, env) {
        SuccessfulActions(d, env, sb);
        SuccessUnwinds(d, env);
      }
    } else {
      RejectedFails(d, args, env);
    }
  }

  /**
   * A CPU profile whose start fails still has its file closed and its
   * profile stopped, since the cleanup was registered before the start.
   */
  lemma CpuStartFailureStillStops(d: Debug, args: seq<string>, env: Env, sb: Sandbox, found: seq<Event>)
    requires Resolve(d, args, env) == Resolved(sb, found)
    requires Succeeds(UntilHeap(d, env, sb))
    requires d.profileCPU != "" && d.profileCPU in env.creatable && !env.startCpuOk
    ensures var before := UntilHeap(d, env, sb);
      Run(d, args, env) == Outcome(
        if env.stopCpuOk then ExitFailure(StartCpuFailed) else Fatal(StopCpuFailed),
        found + before.events + [Create(CpuFile, d.profileCPU), StartCPU, Close(CpuFile), StopCPU]
          + (if env.stopCpuOk && d.profileHeap != "" then [Close(HeapFile)] else []))
  {
    var before := UntilHeap(d, env, sb);
    var m := Main(d, env, sb);
    var started, stopped := [Create(CpuFile, d.profileCPU), StartCPU], [Close(CpuFile), StopCPU];
    var stack := before.deferred + [FinishCpu];
    RunResolved(d, args, env, sb, found);
    CpuStartFails(d, env, sb);
    assert m.events == before.events + started && m.failure == Some(StartCpuFailed) && m.deferred == stack;
    CpuFailureUnwinds(d, env, sb);
    var u := Unwind(stack, env);
    var rest: seq<Event> := if env.stopCpuOk && d.profileHeap != "" then [Close(HeapFile)] else [];
    assert u.events == stopped + rest && u.fatal == (if env.stopCpuOk then None else Some(StopCpuFailed));
    assert started + stopped == [Create(CpuFile, d.profileCPU), StartCPU, Close(CpuFile), StopCPU];
    Regroup(found, before.events, started, stopped, rest);
  }

  /** The calls of a run regrouped around the step that fails. */
  lemma Regroup(found: seq<Event>, before: seq<Event>, started: seq<Event>, stopped: seq<Event>, rest: seq<Event>)
    ensures found + (before + started) + (stopped + rest) == found + before + (started + stopped) + rest
  {
  }

  /** With everything before it successful, a CPU profile that does not start ends the actions with its cleanup on top. */
  lemma CpuStartFails(d: Debug, env: Env, sb: Sandbox)
    requires Succeeds(UntilHeap(d, env, sb))
    requires d.profileCPU != "" && d.profileCPU in env.creatable && !env.startCpuOk
    ensures var before := UntilHeap(d, env, sb);
      Main(d, env, sb) == Effect(before.events + [Create(CpuFile, d.profileCPU), StartCPU], Some(StartCpuFailed), before.deferred + [FinishCpu])
  {
    assert Main(d, env, sb) == UntilCpu(d, env, sb);
  }

  /** The cleanups then stop the CPU profile and, unless that fails, close the heap profile if one was written. */
  lemma CpuFailureUnwinds(d: Debug, env: Env, sb: Sandbox)
    requires Succeeds(UntilHeap(d, env, sb))
    ensures var u := Unwind(UntilHeap(d, env, sb).deferred + [FinishCpu], env);
      && u.events == [Close(CpuFile), StopCPU] + (if env.stopCpuOk && d.profileHeap != "" then [Close(HeapFile)] else [])
      && u.fatal == if env.stopCpuOk then None else Some(StopCpuFailed)
  {
    HeapStack(d, env, sb);
    UnwindCpuOverHeap(d.profileHeap != "", env);
  }

  /** After successful first actions, the only cleanup registered is the heap file's close, if it was written. */
  lemma HeapStack(d: Debug, env: Env, sb: Sandbox)
    requires Succeeds(UntilHeap(d, env, sb))
    ensures UntilHeap(d, env, sb).deferred == if d.profileHeap != "" then [CloseHeap] else []
  {
  }

  /** The CPU cleanup on top of at most the heap close: close and stop, then, unless the stop fails, the heap close. */
  lemma UnwindCpuOverHeap(heap: bool, env: Env)
    ensures var u := Unwind((if heap then [CloseHeap] else []) + [FinishCpu], env);
      && u.events == [Close(CpuFile), StopCPU] + (if env.stopCpuOk && heap then [Close(HeapFile)] else [])
      && u.fatal == if env.stopCpuOk then None else Some(StopCpuFailed)
  {
    var below: seq<Cleanup> := if heap then [CloseHeap] else [];
    UnwindPush(below, FinishCpu, env);
    if heap {
      UnwindPush([], CloseHeap, env);
      assert [] + [CloseHeap] == below;
    }
  }

  /**
   * A trace whose start fails still has its file closed and tracing stopped
   * first; the cleanups registered before it follow.
   */
  lemma TraceStartFailureStillStops(d: Debug, args: seq<string>, env: Env, sb: Sandbox, found: seq<Event>)
    requires Resolve(d, args, env) == Resolved(sb, found)
    requires Succeeds(UntilCpu(d, env, sb))
    requires d.trace != "" && d.trace in env.creatable && !env.startTraceOk
    ensures var before := UntilCpu(d, env, sb);
      Run(d, args, env) == Outcome(
        Status(Some(StartTraceFailed), Unwind(before.deferred + [FinishTrace], env)),
        found + before.events + [Create(TraceFile, d.trace), StartTrace]
          + Unwind(before.deferred + [FinishTrace], env).events)
    ensures var before := UntilCpu(d, env, sb);
      Unwind(before.deferred + [FinishTrace], env).events[..2] == [Close(TraceFile), StopTrace]
  {
    var before := UntilCpu(d, env, sb);
    var m := Main(d, env, sb);
    var started := [Create(TraceFile, d.trace), StartTrace];
    var stack := before.deferred + [FinishTrace];
    RunResolved(d, args, env, sb, found);
    TraceStartFails(d, env, sb);
    assert m.events == before.events + started && m.failure == Some(StartTraceFailed) && m.deferred == stack;
    var u := Unwind(stack, env);
    assert found + m.events + u.events == found + before.events + started + u.events;
    TraceCleanupFirst(before.deferred, env);
  }

  /** Unwinding a stack with the trace cleanup on top closes the trace file and stops tracing first. */
  lemma TraceCleanupFirst(stack: seq<Cleanup>, env: Env)
    ensures |Unwind(stack + [FinishTrace], env).events| >= 2
    ensures Unwind(stack + [FinishTrace], env).events[..2] == [Close(TraceFile), StopTrace]
  {
    UnwindPush(stack, FinishTrace, env);
  }

  /** With everything before it successful, a trace that does not start ends the actions with its cleanup on top. */
  lemma TraceStartFails(d: Debug, env: Env, sb: Sandbox)
    requires Succeeds(UntilCpu(d, env, sb))
    requires d.trace != "" && d.trace in env.creatable && !env.startTraceOk
    ensures var before := UntilCpu(d, env, sb);
      Main(d, env, sb) == Effect(before.events + [Create(TraceFile, d.trace), StartTrace], Some(StartTraceFailed), before.deferred + [FinishTrace])
  {
    assert Main(d, env, sb) == UntilTrace(d, env, sb);
  }

  // ---------------------------------------------------------------------
  // The logging change

  lemma ThenKeeps(a: Effect, b: Effect, x: Event)
    requires x in a.events
    ensures x in Then(a, b).events
  {
  }

  /**
   * In a log of lookups, a prefix of the planned actions and cleanups, the
   * only logging change is the one the plan has after the trace step.
   */
  lemma ChangesInLog(d: Debug, sb: Sandbox, sent: Option<LoggingArgs>, found: seq<Event>, events: seq<Event>, tail: seq<Event>)
    requires Layout(found, events, tail, Plan(d, sb, sent))
    ensures var log := found + events + tail;
      forall i :: 0 <= i < |log| && log[i].ChangeLogging? ==>
        i == |found| + |PlanUntilTrace(d, sb)| && sent.Some? && log[i] == ChangeLogging(sent.value)
  {
    var log := found + events + tail;
    PlanChangesAfterTrace(d, sb, sent);
    forall i | 0 <= i < |log| && log[i].ChangeLogging?
      ensures i == |found| + |PlanUntilTrace(d, sb)| && sent.Some? && log[i] == ChangeLogging(sent.value)
    {
      ChangeAt(Plan(d, sb, sent), PlanUntilTrace(d, sb), sent, found, events, tail, i);
    }
  }

  /** The plan's only logging change, if any, follows the calls up to the trace step and carries the sent request. */
  predicate ChangeOnlyAfter(plan: seq<Event>, until: seq<Event>, sent: Option<LoggingArgs>) {
    forall k :: 0 <= k < |plan| && plan[k].ChangeLogging? ==> k == |until| && sent.Some? && plan[k] == ChangeLogging(sent.value)
  }

  lemma PlanChangesAfterTrace(d: Debug, sb: Sandbox, sent: Option<LoggingArgs>)
    ensures ChangeOnlyAfter(Plan(d, sb, sent), PlanUntilTrace(d, sb), sent)
  {
    forall k | 0 <= k < |Plan(d, sb, sent)| && Plan(d, sb, sent)[k].ChangeLogging?
      ensures k == |PlanUntilTrace(d, sb)| && sent.Some? && Plan(d, sb, sent)[k] == ChangeLogging(sent.value)
    {
      LoggingPosition(d, sb, sent, k);
    }
  }

  /** In a log of lookups, a prefix of the planned actions and cleanups, a logging change is the planned one. */
  lemma ChangeAt(plan: seq<Event>, until: seq<Event>, sent: Option<LoggingArgs>, found: seq<Event>, events: seq<Event>, tail: seq<Event>, i: int)
    requires Layout(found, events, tail, plan) && ChangeOnlyAfter(plan, until, sent)
    requires 0 <= i < |found + events + tail| && (found + events + tail)[i].ChangeLogging?
    ensures i == |found| + |until| && sent.Some? && (found + events + tail)[i] == ChangeLogging(sent.value)
  {
    Locate(found, events, tail, plan, i);
  }

  /**
   * The logging change is sent at most once, with the request built from the
   * flags, and only when some logging flag is given and all of them are valid.
   */
  lemma ChangeLoggingOnce(d: Debug, args: seq<string>, env: Env, sb: Sandbox, found: seq<Event>)
    requires Resolve(d, args, env) == Resolved(sb, found)
    ensures var log := Run(d, args, env).log; var request := BuildLoggingArgs(d.strace, d.logLevel, d.logPackets);
      forall i :: 0 <= i < |log| && log[i].ChangeLogging? ==>
        LoggingRequested(d) && request.Success? && log[i] == ChangeLogging(request.value)
    ensures var log := Run(d, args, env).log;
      forall i, j :: 0 <= i < |log| && 0 <= j < |log| && log[i].ChangeLogging? && log[j].ChangeLogging? ==> i == j
  {
    RunShape(d, args, env, sb, found);
    var m := Main(d, env, sb);
    ChangesInLog(d, sb, SentRequest(d), found, m.events, Unwind(m.deferred, env).events);
  }

  /** A valid logging change is sent whenever the actions before it succeed. */
  lemma ChangeLoggingSent(d: Debug, args: seq<string>, env: Env, sb: Sandbox, found: seq<Event>)
    requires Resolve(d, args, env) == Resolved(sb, found)
    requires Succeeds(UntilTrace(d, env, sb)) && LoggingRequested(d)
    requires BuildLoggingArgs(d.strace, d.logLevel, d.logPackets).Success?
    ensures ChangeLogging(BuildLoggingArgs(d.strace, d.logLevel, d.logPackets).value) in Run(d, args, env).log
  {
    var x := ChangeLogging(BuildLoggingArgs(d.strace, d.logLevel, d.logPackets).value);
    var m := Main(d, env, sb);
    assert Run(d, args, env).log == found + m.events + Unwind(m.deferred, env).events;
    assert x in LoggingEffect(d, env).events;
    assert x in UntilLogging(d, env, sb).events;
    ThenKeeps(UntilLogging(d, env, sb), DelayEffect(d), x);
  }

  /**
   * An invalid logging flag is reported before anything is sent: the command
   * fails with it, and the cleanups already registered still run.
   */
  lemma ValidationBeforeSend(d: Debug, args: seq<string>, env: Env, sb: Sandbox, found: seq<Event>)
    requires Resolve(d, args, env) == Resolved(sb, found)
    requires Succeeds(UntilTrace(d, env, sb)) && LoggingRequested(d)
    requires BuildLoggingArgs(d.strace, d.logLevel, d.logPackets).Failure?
    ensures var before := UntilTrace(d, env, sb); var u := Unwind(before.deferred, env);
      Run(d, args, env) == Outcome(
        Status(Some(InvalidLogging(BuildLoggingArgs(d.strace, d.logLevel, d.logPackets).error)), u),
        found + before.events + u.events)
  {
    var before := UntilTrace(d, env, sb);
    assert LoggingEffect(d, env) == Effect([], Some(InvalidLogging(BuildLoggingArgs(d.strace, d.logLevel, d.logPackets).error)), []);
    assert before.events + [] == before.events && before.deferred + [] == before.deferred;
    assert Main(d, env, sb) == UntilLogging(d, env, sb);
  }

  // ---------------------------------------------------------------------
  // The delay

  /**
   * In a log of lookups, planned actions and cleanups, where the actions are
   * all of the plan when done holds and stop before the delay otherwise, the
   * only sleep is the last action, and it is there exactly when a timed
   * capture was requested and done holds.
   */
  lemma SleepsInLog(d: Debug, sb: Sandbox, sent: Option<LoggingArgs>, found: seq<Event>, events: seq<Event>, tail: seq<Event>, done: bool)
    requires Layout(found, events, tail, Plan(d, sb, sent))
    requires done ==> events == Plan(d, sb, sent)
    requires !done ==> events <= PlanUntilLogging(d, sb, sent)
    ensures var log := found + events + tail;
      (exists i :: 0 <= i < |log| && log[i].Sleep?) <==> TimedCapture(d) && done
    ensures var log := found + events + tail;
      forall i :: 0 <= i < |log| && log[i].Sleep? ==>
        log[i] == Sleep(d.profileDelay) && i == |found| + |Plan(d, sb, sent)| - 1 &&
        forall j :: i < j < |log| ==> log[j].Close? || log[j].StopCPU? || log[j].StopTrace?
  {
    var log := found + events + tail;
    var plan := Plan(d, sb, sent);
    PlanSleepsAtEnd(d, sb, sent);
    forall i | 0 <= i < |log| && log[i].Sleep?
      ensures log[i] == Sleep(d.profileDelay) && i == |found| + |plan| - 1 && TimedCapture(d) && done
      ensures forall j :: i < j < |log| ==> log[j].Close? || log[j].StopCPU? || log[j].StopTrace?
    {
      SleepAt(plan, PlanUntilLogging(d, sb, sent), TimedCapture(d), d.profileDelay, found, events, tail, done, i);
      AfterActions(found, events, tail, i);
    }
    if TimedCapture(d) && done {
      assert log[|found| + |plan| - 1] == plan[|plan| - 1] == DelayPlan(d)[0];
    }
  }

  /** The plan's only sleep, if any, is its last call, right after the calls before the delay; it is the delay for a timed capture. */
  predicate SleepOnlyAtEnd(plan: seq<Event>, until: seq<Event>, timed: bool, delay: int) {
    forall k :: 0 <= k < |plan| && plan[k].Sleep? ==> k == |until| == |plan| - 1 && timed && plan[k] == Sleep(delay)
  }

  lemma PlanSleepsAtEnd(d: Debug, sb: Sandbox, sent: Option<LoggingArgs>)
    ensures SleepOnlyAtEnd(Plan(d, sb, sent), PlanUntilLogging(d, sb, sent), TimedCapture(d), d.profileDelay)
  {
    forall k | 0 <= k < |Plan(d, sb, sent)| && Plan(d, sb, sent)[k].Sleep?
      ensures k == |PlanUntilLogging(d, sb, sent)| == |Plan(d, sb, sent)| - 1
      ensures TimedCapture(d) && Plan(d, sb, sent)[k] == Sleep(d.profileDelay)
    {
      SleepPosition(d, sb, sent, k);
    }
  }

  /**
   * In a log laid out against such a plan, where the actions are all of the
   * plan or stop before the delay, a sleep is the delay, the actions are
   * complete, and the sleep is the last of them.
   */
  lemma SleepAt(plan: seq<Event>, until: seq<Event>, timed: bool, delay: int,
                found: seq<Event>, events: seq<Event>, tail: seq<Event>, done: bool, i: int)
    requires Layout(found, events, tail, plan) && SleepOnlyAtEnd(plan, until, timed, delay)
    requires done ==> events == plan
    requires !done ==> events <= until
    requires 0 <= i < |found + events + tail| && (found + events + tail)[i].Sleep?
    ensures (found + events + tail)[i] == Sleep(delay) && timed && done
    ensures i == |found| + |events| - 1 && |events| == |plan|
  {
    Locate(found, events, tail, plan, i);
  }

  /**
   * The command sleeps for the profile delay exactly when a CPU profile or a
   * trace was requested and every action succeeded, at most once, after all
   * the actions and before any cleanup; a run with neither never sleeps.
   */
  lemma SleepIffTimedCapture(d: Debug, args: seq<string>, env: Env, sb: Sandbox, found: seq<Event>)
    requires Resolve(d, args, env) == Resolved(sb, found)
    ensures var log := Run(d, args, env).log;
      (exists i :: 0 <= i < |log| && log[i].Sleep?) <==> TimedCapture(d) && ActionsSucceed(d, env)
    ensures var log := Run(d, args, env).log;
      forall i :: 0 <= i < |log| && log[i].Sleep? ==>
        log[i] == Sleep(d.profileDelay) && i == |found| + |Plan(d, sb, SentRequest(d))| - 1 &&
        forall j :: i < j < |log| ==> log[j].Close? || log[j].StopCPU? || log[j].StopTrace?
  {
    RunShape(d, args, env, sb, found);
    ActionsFollowPlan(d, env, sb);
    var m := Main(d, env, sb);
    SleepsInLog(d, sb, SentRequest(d), found, m.events, Unwind(m.deferred, env).events, ActionsSucceed(d, env));
  }

  // ---------------------------------------------------------------------
  // End-to-end runs

  /** Dumping the stacks of a running sandbox by container id: one lookup, one dump, no delay, success. */
  lemma StacksByContainerId(env: Env)
    requires "abc" in env.containers
    requires var c := env.containers["abc"]; c.sandbox.Some? && c.sandbox.value.running
    requires env.stacksOk
    ensures Run(Defaults().(stacks := true), ["abc"], env) == Outcome(ExitSuccess, [Load("abc"), Stacks])
  {
  }

  /**
   * A CPU profile of the sandbox with pid 42: the file is created, the
   * profile started, the command sleeps 5 seconds, then the file is closed
   * and the profile stopped.
   */
  lemma CpuProfileByPid(env: Env, id: string, sb: Sandbox)
    requires env.list == Some([id]) && id in env.containers
    requires env.containers[id] == Container(42, Some(sb)) && sb.running
    requires "/tmp/cpu.out" in env.creatable && env.startCpuOk && env.stopCpuOk
    ensures Run(Defaults().(pid := 42, profileCPU := "/tmp/cpu.out"), [], env) ==
      Outcome(ExitSuccess, [List, Load(id), Create(CpuFile, "/tmp/cpu.out"), StartCPU, Sleep(5), Close(CpuFile), StopCPU])
  {
    var d := Defaults().(pid := 42, profileCPU := "/tmp/cpu.out");
    ResolvesByPid(d, env, id, sb);
    CpuOnlyActions(d, env, sb);
    RunResolved(d, [], env, sb, [List, Load(id)]);
    UnwindPush([], FinishCpu, env);
    assert [] + [FinishCpu] == [FinishCpu];
  }

  /** A working CPU profile alone is created, started, and given the default 5-second delay, leaving its cleanup. */
  lemma CpuOnlyActions(d: Debug, env: Env, sb: Sandbox)
    requires d == Defaults().(pid := 42, profileCPU := "/tmp/cpu.out")
    requires "/tmp/cpu.out" in env.creatable && env.startCpuOk
    ensures Main(d, env, sb) == Effect([Create(CpuFile, "/tmp/cpu.out"), StartCPU, Sleep(5)], None, [FinishCpu])
  {
    assert !LoggingRequested(d);
    assert UntilHeap(d, env, sb) == Effect([], None, []);
    assert CpuEffect(d, env) == Effect([Create(CpuFile, "/tmp/cpu.out"), StartCPU], None, [FinishCpu]);
    assert UntilTrace(d, env, sb) == Effect([Create(CpuFile, "/tmp/cpu.out"), StartCPU], None, [FinishCpu]);
  }

  /** The one listed container runs process 42, so the lookup by that process finds its sandbox. */
  lemma ResolvesByPid(d: Debug, env: Env, id: string, sb: Sandbox)
    requires d.pid == 42 && env.list == Some([id]) && id in env.containers
    requires env.containers[id] == Container(42, Some(sb)) && sb.running
    ensures Resolve(d, [], env) == Resolved(sb, [List, Load(id)])
  {
    assert ScanStop([id], 42, env.containers) == 0;
  }

  /** An invalid log level fails the run after the container lookup, with nothing sent to the sandbox. */
  lemma BogusLogLevel(env: Env)
    requires "x" in env.containers
    requires var c := env.containers["x"]; c.sandbox.Some? && c.sandbox.value.running
    ensures Run(Defaults().(logLevel := "bogus"), ["x"], env) ==
      Outcome(ExitFailure(InvalidLogging(InvalidLogLevel("bogus"))), [Load("x")])
  {
    var d := Defaults().(logLevel := "bogus");
    var sb := env.containers["x"].sandbox.value;
    ToLowerKeeps("bogus");
    assert ParseLevel("bogus") == None;
    assert LoggingEffect(d, env) == Effect([], Some(InvalidLogging(InvalidLogLevel("bogus"))), []);
    assert Resolve(d, ["x"], env) == Resolved(sb, [Load("x")]);
    assert UntilTrace(d, env, sb) == Effect([], None, []);
    assert Main(d, env, sb) == Effect([], Some(InvalidLogging(InvalidLogLevel("bogus"))), []);
    RunResolved(d, ["x"], env, sb, [Load("x")]);
  }
}
