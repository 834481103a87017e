/** The production smoke plan: its command list, its worst-case bound, and the run that
    must undo whatever it attempted unless undoing is unsafe. */
module SmokePlan {
  import opened Options

  datatype Dependency = Temporal | Dind | Postgres | Minio | Redis | Redpanda | Backend

  datatype StepName =
    | Config
    | Build
    | Up
    | OpensearchInit
    | TemporalNamespace
    | BackendReadiness
    | WorkerReadiness
    | DindReadiness
    | McpProxyAuth
    | StopDependency(stopped: Dependency)
    | ObserveReadinessFailure(observed: Dependency)
    | StartDependency(started: Dependency)
    | RecoverReadiness(recovered: Dependency)
    | PostFaultBackendReadiness
    | PostFaultWorkerReadiness
    | FindingsStop
    | FindingsUnavailable
    | FindingsRestart
    | FindingsBackendRecovered
    | FindingsAcceptance
    | LifecycleReset
    | LifecycleMigrate
    | LifecycleQuiescent
    | LifecycleDurability
    | LifecycleDrop
    | WorkerCrashRecovery
    | CriticalJourney
    | BrowserTargetJourney
    | ManagedResourceCleanup
    | TelemetryDurability
    | Down

  datatype Step = Step(name: StepName, timeoutMs: int)

  datatype TrustProfile = TrustedLocal | Hardened

  const SECOND_MS := 1_000
  const LIFECYCLE_DATABASE_COMMAND_TIMEOUT_MS := 45 * SECOND_MS
  const NGINX_PROBE_TIMEOUT_MS := 10 * SECOND_MS
  const TELEMETRY_DURABILITY_COMPOSE_TIMEOUT_MS := 1_920 * SECOND_MS

  // ---------- the command list ----------

  function DependencyRecovery(d: Dependency, wait: int): seq<Step> {
    var restartWait := if wait < 120 then wait else 120;
    [ Step(StopDependency(d), 30 * SECOND_MS),
      Step(ObserveReadinessFailure(d), LIFECYCLE_DATABASE_COMMAND_TIMEOUT_MS),
      Step(StartDependency(d), (restartWait + 30) * SECOND_MS),
      Step(RecoverReadiness(d), 105 * SECOND_MS) ]
  }

  function DependencyRecoveries(ds: seq<Dependency>, wait: int): seq<Step> {
    if ds == [] then [] else DependencyRecovery(ds[0], wait) + DependencyRecoveries(ds[1..], wait)
  }

  const REQUIRED_WORKER_DEPENDENCIES := [Temporal, Dind, Postgres, Minio, Redis, Redpanda, Backend]

  function BringUpCommands(wait: int): seq<Step> {
    [ Step(Config, 30 * SECOND_MS),
      Step(Build, wait * SECOND_MS),
      Step(Up, (wait + 60) * SECOND_MS),
      Step(OpensearchInit, 120 * SECOND_MS),
      Step(TemporalNamespace, 30 * SECOND_MS),
      Step(BackendReadiness, 30 * SECOND_MS),
      Step(WorkerReadiness, 30 * SECOND_MS),
      Step(DindReadiness, 30 * SECOND_MS),
      Step(McpProxyAuth, 30 * SECOND_MS) ]
  }

  function PostFaultCommands(): seq<Step> {
    [ Step(PostFaultBackendReadiness, 105 * SECOND_MS), Step(PostFaultWorkerReadiness, 30 * SECOND_MS) ]
  }

  function FindingsCommands(profile: TrustProfile): seq<Step> {
    if profile.Hardened? then []
    else
      [ Step(FindingsStop, 30 * SECOND_MS),
        Step(FindingsUnavailable, 60 * SECOND_MS),
        Step(FindingsRestart, 150 * SECOND_MS),
        Step(FindingsBackendRecovered, 105 * SECOND_MS),
        Step(FindingsAcceptance, 1_500 * SECOND_MS) ]
  }

  function LifecycleCommands(): seq<Step> {
    [ Step(LifecycleReset, LIFECYCLE_DATABASE_COMMAND_TIMEOUT_MS),
      Step(LifecycleMigrate, 240 * SECOND_MS),
      Step(LifecycleQuiescent, 30 * SECOND_MS),
      Step(LifecycleDurability, 600 * SECOND_MS),
      Step(LifecycleDrop, LIFECYCLE_DATABASE_COMMAND_TIMEOUT_MS) ]
  }

  function JourneyCommands(profile: TrustProfile): seq<Step> {
    [Step(WorkerCrashRecovery, 360 * SECOND_MS), Step(CriticalJourney, 600 * SECOND_MS)]
    + (if profile.TrustedLocal? then [Step(BrowserTargetJourney, 600 * SECOND_MS)] else [])
    + [Step(ManagedResourceCleanup, 120 * SECOND_MS)]
    + (if profile.TrustedLocal? then [Step(TelemetryDurability, TELEMETRY_DURABILITY_COMPOSE_TIMEOUT_MS)] else [])
    + [Step(Down, 300 * SECOND_MS)]
  }

  /** None stands for the error on a wait timeout that is not positive. */
  function BuildSmokeCommands(wait: int, profile: TrustProfile): Option<seq<Step>> {
    if wait < 1 then None
    else
      Some(BringUpCommands(wait)
           + DependencyRecoveries(REQUIRED_WORKER_DEPENDENCIES, wait)
           + PostFaultCommands()
           + FindingsCommands(profile)
           + LifecycleCommands()
           + JourneyCommands(profile))
  }

  function SumTimeouts(commands: seq<Step>): int {
    if commands == [] then 0 else SumTimeouts(commands[..|commands| - 1]) + commands[|commands| - 1].timeoutMs
  }

  predicate IsRecovery(step: Step) {
    step.name == FindingsRestart || step.name == FindingsBackendRecovered
  }

  function RecoverySteps(commands: seq<Step>): seq<Step> {
    if commands == [] then []
    else RecoverySteps(commands[..|commands| - 1])
         + if IsRecovery(commands[|commands| - 1]) then [commands[|commands| - 1]] else []
  }

  function WorstCaseMs(commands: seq<Step>): int {
    SumTimeouts(commands) + NGINX_PROBE_TIMEOUT_MS + LIFECYCLE_DATABASE_COMMAND_TIMEOUT_MS
    + SumTimeouts(RecoverySteps(commands))
  }

  /** Rounded up to whole seconds. */
  function WorstCaseSeconds(commands: seq<Step>): int {
    (WorstCaseMs(commands) + SECOND_MS - 1) / SECOND_MS
  }

  // ---------- the plan ----------

  function Find(commands: seq<Step>, name: StepName): Option<nat> {
    if commands == [] then None
    else if commands[0].name == name then Some(0)
    else
      match Find(commands[1..], name)
      case None => None
      case Some(i) => Some(i + 1)
  }

  /** Where the commands the plan knows by name stand in the list, if they are there. */
  datatype Roles = Roles(
    config: Option<nat>,
    build: Option<nat>,
    up: Option<nat>,
    opensearchInit: Option<nat>,
    reset: Option<nat>,
    drop: Option<nat>,
    stop: Option<nat>,
    restart: Option<nat>,
    recovered: Option<nat>,
    cleanup: Option<nat>
  )

  function RolesOf(commands: seq<Step>): Roles {
    Roles(Find(commands, Config), Find(commands, Build), Find(commands, Up), Find(commands, OpensearchInit),
          Find(commands, LifecycleReset), Find(commands, LifecycleDrop),
          Find(commands, FindingsStop), Find(commands, FindingsRestart), Find(commands, FindingsBackendRecovered),
          if commands == [] then None else Some(|commands| - 1))
  }

  /** Something the plan runs: the command at an index, the nginx probe, or a command
      the list lacks, which fails at once. */
  datatype Call = Run(index: nat) | Probe | Missing

  datatype Outcome = Passed(ms: nat) | Failed(ms: nat, error: int, unsafe: bool)

  datatype Entry = Entry(call: Call, outcome: Outcome)

  type Trace = seq<Entry>

  /** The outcome of the k-th call that is started. */
  type Environment = nat -> Outcome

  const TYPE_ERROR := 0

  function Execute(call: Call, env: Environment, k: nat): Entry {
    Entry(call, if call.Missing? then Failed(0, TYPE_ERROR, false) else env(k))
  }

  function CallFor(index: Option<nat>): Call {
    if index.Some? then Run(index.value) else Missing
  }

  /** The commands the loop leaves out, because they run before it or after it. */
  predicate Skipped(r: Roles, i: nat) {
    r.config == Some(i) || r.build == Some(i) || r.up == Some(i) || r.opensearchInit == Some(i)
    || r.cleanup == Some(i)
  }

  function LoopCalls(r: Roles, n: nat): seq<Call> {
    if n == 0 then []
    else LoopCalls(r, n - 1) + if Skipped(r, n - 1) then [] else [Run(n - 1)]
  }

  function OpeningCalls(r: Roles): seq<Call> {
    [CallFor(r.config), CallFor(r.build), CallFor(r.up), CallFor(r.opensearchInit), Probe]
  }

  /** The main calls up to index n of the loop. */
  function MainCalls(r: Roles, n: nat): seq<Call> {
    OpeningCalls(r) + LoopCalls(r, n)
  }

  predicate AllPassed(trace: Trace) {
    forall i :: 0 <= i < |trace| ==> trace[i].outcome.Passed?
  }

  /** The trace runs the calls in order, and goes on exactly as long as they pass. */
  predicate Runs(trace: Trace, calls: seq<Call>, env: Environment, base: nat) {
    && |trace| <= |calls|
    && (forall i :: 0 <= i < |trace| ==> trace[i] == Execute(calls[i], env, base + i))
    && (forall i :: 0 <= i < |trace| - 1 ==> trace[i].outcome.Passed?)
    && (|trace| < |calls| ==> trace != [] && trace[|trace| - 1].outcome.Failed?)
  }

  /** The error is the first failure of the trace. */
  predicate IsFirstFailure(error: Option<Outcome>, trace: Trace) {
    match error
    case None => AllPassed(trace)
    case Some(outcome) =>
      outcome.Failed? && exists i :: 0 <= i < |trace| && trace[i].outcome == outcome && AllPassed(trace[..i])
  }

  predicate Unsafe(trace: Trace) {
    exists i :: 0 <= i < |trace| && trace[i].outcome.Failed? && trace[i].outcome.unsafe
  }

  predicate Attempted(trace: Trace, index: Option<nat>) {
    index.Some? && exists i :: 0 <= i < |trace| && trace[i].call == Run(index.value)
  }

  predicate Completed(trace: Trace, index: Option<nat>) {
    index.Some? && exists i :: 0 <= i < |trace| && trace[i].call == Run(index.value) && trace[i].outcome.Passed?
  }

  /** What the plan remembers about the steps it may have to undo. */
  datatype Progress = Progress(
    resetAttempted: bool,
    dropCompleted: bool,
    stopAttempted: bool,
    restartCompleted: bool,
    recoveredCompleted: bool
  )

  function ProgressOf(r: Roles, trace: Trace): Progress {
    Progress(Attempted(trace, r.reset), Completed(trace, r.drop),
             Attempted(trace, r.stop), Completed(trace, r.restart), Completed(trace, r.recovered))
  }

  /** What the recovery still has to do before and after the restart. */
  function RestartCalls(r: Roles, p: Progress): seq<Call> {
    if !p.restartCompleted && r.restart.Some? then [Run(r.restart.value)] else []
  }

  function BackendCalls(r: Roles, p: Progress): seq<Call> {
    if (p.restartCompleted || r.restart.Some?) && !p.recoveredCompleted && r.recovered.Some? then
      [Run(r.recovered.value)]
    else
      []
  }

  /** What the recovery after an attempted OpenSearch stop still has to do. */
  function RecoveryCalls(r: Roles, p: Progress): seq<Call> {
    if !p.stopAttempted || (p.restartCompleted && p.recoveredCompleted) then []
    else
      RestartCalls(r, p) + BackendCalls(r, p)
  }

  function DropCalls(r: Roles, p: Progress): seq<Call> {
    if p.resetAttempted && !p.dropCompleted && r.drop.Some? then [Run(r.drop.value)] else []
  }

  /** The third main call is the attempt to bring the stack up. */
  function DownCalls(r: Roles, keep: bool, main: Trace): seq<Call> {
    if 3 <= |main| && r.cleanup.Some? && !keep then [Run(r.cleanup.value)] else []
  }

  /** The four parts of a plan run: the main block, then up to three cleanup blocks, each
      passed over once a failure was unsafe. */
  datatype Parts = Parts(main: Trace, recovery: Trace, drop: Trace, down: Trace) {
    function Upto2(): Trace { main + recovery }

    function Upto3(): Trace { main + recovery + drop }

    function All(): Trace { main + recovery + drop + down }
  }

  function Guarded(safe: bool, calls: seq<Call>): seq<Call> {
    if safe then calls else []
  }

  predicate IsPlanRun(r: Roles, n: nat, keep: bool, env: Environment, p: Parts) {
    && Runs(p.main, MainCalls(r, n), env, 0)
    && Runs(p.recovery, Guarded(!Unsafe(p.main), RecoveryCalls(r, ProgressOf(r, p.main))), env, |p.main|)
    && Runs(p.drop, Guarded(!Unsafe(p.Upto2()), DropCalls(r, ProgressOf(r, p.main))), env, |p.Upto2()|)
    && Runs(p.down, Guarded(!Unsafe(p.Upto3()), DownCalls(r, keep, p.main)), env, |p.Upto3()|)
  }

  // ---------- the imperative plan ----------

  lemma FirstFailureSnoc(error: Option<Outcome>, trace: Trace, entry: Entry)
    requires IsFirstFailure(error, trace)
    ensures IsFirstFailure(
              if error.Some? then error else if entry.outcome.Failed? then Some(entry.outcome) else None,
              trace + [entry])
  {
    var longer := trace + [entry];
    if error.Some? {
      var i :| 0 <= i < |trace| && trace[i].outcome == error.value && AllPassed(trace[..i]);
      assert longer[..i] == trace[..i];
    } else {
      assert longer[..|trace|] == trace && longer[|trace|] == entry;
    }
  }

  /** One awaited step: it is recorded, and the first error is kept. */
  method RunStep(call: Call, env: Environment, trace: Trace, primary: Option<Outcome>)
    returns (longer: Trace, error: Option<Outcome>, passed: bool)
    requires IsFirstFailure(primary, trace)
    ensures longer == trace + [Execute(call, env, |trace|)]
    ensures passed <==> Execute(call, env, |trace|).outcome.Passed?
    ensures IsFirstFailure(error, longer) && (error.None? <==> primary.None? && passed)
  {
    var entry := Execute(call, env, |trace|);
    longer, passed := trace + [entry], entry.outcome.Passed?;
    error := if primary.Some? then primary else if passed then None else Some(entry.outcome);
    FirstFailureSnoc(primary, trace, entry);
  }

  /** Config, build, up, OpenSearch initialisation and the nginx probe. */
  method RunOpening(r: Roles, env: Environment)
    returns (trace: Trace, primary: Option<Outcome>, upAttempted: bool)
    ensures Runs(trace, OpeningCalls(r), env, 0) && IsFirstFailure(primary, trace)
    ensures upAttempted <==> 3 <= |trace|
  {
    upAttempted := false;
    var passed;
    trace, primary, passed := RunStep(CallFor(r.config), env, [], None);
    if passed {
      trace, primary, passed := RunStep(CallFor(r.build), env, trace, primary);
    }
    if passed {
      upAttempted := true;
      trace, primary, passed := RunStep(CallFor(r.up), env, trace, primary);
    }
    if passed {
      trace, primary, passed := RunStep(CallFor(r.opensearchInit), env, trace, primary);
    }
    if passed {
      trace, primary, passed := RunStep(Probe, env, trace, primary);
    }
  }

  predicate NotInOpening(r: Roles, tracked: Option<nat>) {
    tracked.Some? ==>
      tracked != r.config && tracked != r.build && tracked != r.up && tracked != r.opensearchInit
  }

  predicate Apart(a: Option<nat>, b: Option<nat>) {
    a.Some? && b.Some? ==> a != b
  }

  predicate OpeningDistinct(r: Roles) {
    && Apart(r.config, r.build) && Apart(r.config, r.up) && Apart(r.config, r.opensearchInit)
    && Apart(r.build, r.up) && Apart(r.build, r.opensearchInit) && Apart(r.up, r.opensearchInit)
  }

  /** Commands with different names stand at different places. */
  predicate DistinctRoles(r: Roles) {
    && OpeningDistinct(r)
    && NotInOpening(r, r.reset) && NotInOpening(r, r.drop)
    && NotInOpening(r, r.stop) && NotInOpening(r, r.restart) && NotInOpening(r, r.recovered)
  }

  lemma {:induction false} FindNamed(commands: seq<Step>, name: StepName)
    ensures match Find(commands, name)
            case None => forall i :: 0 <= i < |commands| ==> commands[i].name != name
            case Some(i) =>
              && i < |commands| && commands[i].name == name
              && forall j :: 0 <= j < i ==> commands[j].name != name
  {
    if commands != [] && commands[0].name != name {
      FindNamed(commands[1..], name);
    }
  }

  lemma NamedApart(commands: seq<Step>, name: StepName)
    requires name != Config && name != Build && name != Up && name != OpensearchInit
    ensures NotInOpening(RolesOf(commands), Find(commands, name))
  {
    FindNamed(commands, name);
    FindNamed(commands, Config);
    FindNamed(commands, Build);
    FindNamed(commands, Up);
    FindNamed(commands, OpensearchInit);
  }

  lemma OpeningApart(commands: seq<Step>)
    ensures OpeningDistinct(RolesOf(commands))
  {
    FindNamed(commands, Config);
    FindNamed(commands, Build);
    FindNamed(commands, Up);
    FindNamed(commands, OpensearchInit);
  }

  lemma RolesAreDistinct(commands: seq<Step>)
    ensures DistinctRoles(RolesOf(commands))
  {
    OpeningApart(commands);
    NamedApart(commands, LifecycleReset);
    NamedApart(commands, LifecycleDrop);
    NamedApart(commands, FindingsStop);
    NamedApart(commands, FindingsRestart);
    NamedApart(commands, FindingsBackendRecovered);
  }

  const NOTHING := Progress(false, false, false, false, false)

  lemma OpeningProgress(r: Roles, trace: Trace, env: Environment)
    requires DistinctRoles(r) && Runs(trace, OpeningCalls(r), env, 0)
    ensures ProgressOf(r, trace) == NOTHING
  {
  }

  function Started(r: Roles, p: Progress, i: nat): Progress {
    p.(resetAttempted := p.resetAttempted || r.reset == Some(i),
       stopAttempted := p.stopAttempted || r.stop == Some(i))
  }

  function Finished(r: Roles, p: Progress, i: nat): Progress {
    p.(dropCompleted := p.dropCompleted || r.drop == Some(i),
       restartCompleted := p.restartCompleted || r.restart == Some(i),
       recoveredCompleted := p.recoveredCompleted || r.recovered == Some(i))
  }

  lemma TrackedSnoc(trace: Trace, entry: Entry, i: nat, index: Option<nat>)
    requires entry.call == Run(i)
    ensures Attempted(trace + [entry], index) <==> Attempted(trace, index) || index == Some(i)
    ensures Completed(trace + [entry], index) <==>
              Completed(trace, index) || (index == Some(i) && entry.outcome.Passed?)
  {
    var longer := trace + [entry];
    assert longer[|trace|] == entry;
    assert forall k :: 0 <= k < |trace| ==> longer[k] == trace[k];
  }

  lemma ProgressSnoc(r: Roles, trace: Trace, entry: Entry, i: nat)
    requires entry.call == Run(i)
    ensures var started := Started(r, ProgressOf(r, trace), i);
            ProgressOf(r, trace + [entry]) ==
            if entry.outcome.Passed? then Finished(r, started, i) else started
  {
    TrackedSnoc(trace, entry, i, r.reset);
    TrackedSnoc(trace, entry, i, r.drop);
    TrackedSnoc(trace, entry, i, r.stop);
    TrackedSnoc(trace, entry, i, r.restart);
    TrackedSnoc(trace, entry, i, r.recovered);
  }

  /** All the calls have run and passed. */
  predicate RunsThrough(trace: Trace, calls: seq<Call>, env: Environment) {
    Runs(trace, calls, env, 0) && |trace| == |calls| && AllPassed(trace)
  }

  lemma RunsSnoc(trace: Trace, calls: seq<Call>, call: Call, env: Environment)
    requires RunsThrough(trace, calls, env)
    ensures Runs(trace + [Execute(call, env, |trace|)], calls + [call], env, 0)
    ensures Execute(call, env, |trace|).outcome.Passed? ==>
              RunsThrough(trace + [Execute(call, env, |trace|)], calls + [call], env)
  {
  }

  lemma FailedRunsStop(trace: Trace, calls: seq<Call>, more: seq<Call>, env: Environment)
    requires Runs(trace, calls, env, 0) && !AllPassed(trace)
    ensures Runs(trace, calls + more, env, 0)
  {
  }

  lemma {:induction false} LoopCallsGrow(r: Roles, m: nat, n: nat) returns (more: seq<Call>)
    requires m <= n
    ensures MainCalls(r, n) == MainCalls(r, m) + more
  {
    if m == n {
      more := [];
    } else {
      var fewer := LoopCallsGrow(r, m, n - 1);
      more := fewer + if Skipped(r, n - 1) then [] else [Run(n - 1)];
      assert MainCalls(r, n) == MainCalls(r, n - 1) + if Skipped(r, n - 1) then [] else [Run(n - 1)];
    }
  }

  /** The loop over the remaining commands. */
  method RunLoop(r: Roles, n: nat, env: Environment, opening: Trace, failure: Option<Outcome>)
    returns (trace: Trace, primary: Option<Outcome>, progress: Progress)
    requires DistinctRoles(r)
    requires Runs(opening, OpeningCalls(r), env, 0) && IsFirstFailure(failure, opening)
    ensures Runs(trace, MainCalls(r, n), env, 0) && IsFirstFailure(primary, trace)
    ensures progress == ProgressOf(r, trace)
    ensures opening <= trace && (failure.Some? ==> trace == opening)
  {
    trace, primary, progress := opening, failure, NOTHING;
    OpeningProgress(r, opening, env);
    assert MainCalls(r, 0) == OpeningCalls(r);
    var passed, i := failure.None?, 0;
    while passed && i < n
      invariant i <= n && opening <= trace && (failure.Some? ==> trace == opening)
      invariant Runs(trace, MainCalls(r, i), env, 0) && IsFirstFailure(primary, trace)
      invariant passed <==> primary.None?
      invariant progress == ProgressOf(r, trace)
    {
      if Skipped(r, i) {
        assert MainCalls(r, i + 1) == MainCalls(r, i);
      } else {
        assert MainCalls(r, i + 1) == MainCalls(r, i) + [Run(i)];
        RunsSnoc(trace, MainCalls(r, i), Run(i), env);
        ProgressSnoc(r, trace, Execute(Run(i), env, |trace|), i);
        progress := Started(r, progress, i);
        trace, primary, passed := RunStep(Run(i), env, trace, primary);
        if passed {
          progress := Finished(r, progress, i);
        }
      }
      i := i + 1;
    }
    ghost var more := LoopCallsGrow(r, i, n);
    if !passed {
      FailedRunsStop(trace, MainCalls(r, i), more, env);
    }
  }

  /** A trace that stops at its first failure is unsafe exactly when its error is. */
  lemma UnsafeByError(trace: Trace, calls: seq<Call>, env: Environment, error: Option<Outcome>)
    requires Runs(trace, calls, env, 0) && IsFirstFailure(error, trace)
    ensures Unsafe(trace) <==> error.Some? && error.value.unsafe
  {
    if error.Some? {
      var i :| 0 <= i < |trace| && trace[i].outcome == error.value && AllPassed(trace[..i]);
      assert i == |trace| - 1;
    }
  }

  lemma UnsafeConcat(a: Trace, b: Trace)
    ensures Unsafe(a + b) <==> Unsafe(a) || Unsafe(b)
  {
    assert forall i :: 0 <= i < |a| ==> (a + b)[i] == a[i];
    assert forall i :: 0 <= i < |b| ==> (a + b)[|a| + i] == b[i];
  }

  /** One awaited cleanup step; its error is kept only if it is the first, and an unsafe
      error stops all further cleanup. */
  method RunCleanupStep(call: Call, env: Environment, trace: Trace, primary: Option<Outcome>)
    returns (longer: Trace, error: Option<Outcome>, passed: bool, safe: bool)
    requires IsFirstFailure(primary, trace) && !Unsafe(trace)
    ensures longer == trace + [Execute(call, env, |trace|)]
    ensures passed <==> Execute(call, env, |trace|).outcome.Passed?
    ensures IsFirstFailure(error, longer) && (safe <==> !Unsafe(longer)) && (passed ==> safe)
  {
    var entry := Execute(call, env, |trace|);
    longer, error, passed := RunStep(call, env, trace, primary);
    safe := passed || !entry.outcome.unsafe;
    UnsafeConcat(trace, [entry]);
    assert Unsafe([entry]) <==> entry.outcome.Failed? && entry.outcome.unsafe by {
      assert [entry][0] == entry;
    }
  }

  lemma RunsNothing(env: Environment, base: nat)
    ensures Runs([], [], env, base)
  {
  }

  lemma RunsOneCall(call: Call, env: Environment, base: nat)
    ensures Runs([Execute(call, env, base)], [call], env, base)
  {
  }

  lemma RunsOn(a: Trace, b: Trace, first: seq<Call>, second: seq<Call>, env: Environment, base: nat)
    requires Runs(a, first, env, base) && AllPassed(a) && Runs(b, second, env, base + |a|)
    ensures Runs(a + b, first + second, env, base)
  {
    assert |a| == |first|;
    hide Execute;
    forall i | 0 <= i < |a + b|
      ensures (a + b)[i] == Execute((first + second)[i], env, base + i)
      ensures i < |a + b| - 1 ==> (a + b)[i].outcome.Passed?
    {
      if i < |a| {
        assert (a + b)[i] == a[i] && (first + second)[i] == first[i];
      } else {
        assert (a + b)[i] == b[i - |a|] && (first + second)[i] == second[i - |a|];
      }
    }
    if |b| < |second| {
      assert (a + b)[|a + b| - 1] == b[|b| - 1];
    }
  }

  lemma RunsStops(a: Trace, first: seq<Call>, second: seq<Call>, env: Environment, base: nat)
    requires Runs(a, first, env, base) && a != [] && a[|a| - 1].outcome.Failed?
    ensures Runs(a, first + second, env, base)
  {
  }

  /** Restart OpenSearch, unless it is already back. */
  method RunRestart(r: Roles, p: Progress, env: Environment, trace: Trace, primary: Option<Outcome>)
    returns (done: Trace, longer: Trace, error: Option<Outcome>, passed: bool, safe: bool)
    requires IsFirstFailure(primary, trace) && !Unsafe(trace)
    ensures longer == trace + done && Runs(done, RestartCalls(r, p), env, |trace|)
    ensures if passed then AllPassed(done) else done != [] && done[|done| - 1].outcome.Failed?
    ensures IsFirstFailure(error, longer) && (safe <==> !Unsafe(longer)) && (passed ==> safe)
  {
    done, longer, error, passed, safe := [], trace, primary, true, true;
    if !p.restartCompleted && r.restart.Some? {
      var call := Run(r.restart.value);
      done := [Execute(call, env, |trace|)];
      RunsOneCall(call, env, |trace|);
      longer, error, passed, safe := RunCleanupStep(call, env, trace, primary);
      assert done[0] == Execute(call, env, |trace|);
    }
  }

  /** Then wait for the backend, unless it has already recovered. */
  method RunBackend(r: Roles, p: Progress, env: Environment, trace: Trace, primary: Option<Outcome>)
    returns (done: Trace, longer: Trace, error: Option<Outcome>, safe: bool)
    requires IsFirstFailure(primary, trace) && !Unsafe(trace)
    ensures longer == trace + done && Runs(done, BackendCalls(r, p), env, |trace|)
    ensures IsFirstFailure(error, longer) && (safe <==> !Unsafe(longer))
  {
    done, longer, error, safe := [], trace, primary, true;
    if (p.restartCompleted || r.restart.Some?) && !p.recoveredCompleted && r.recovered.Some? {
      var passed;
      var call := Run(r.recovered.value);
      done := [Execute(call, env, |trace|)];
      RunsOneCall(call, env, |trace|);
      longer, error, passed, safe := RunCleanupStep(call, env, trace, primary);
    }
  }

  /** Restart OpenSearch, then wait for the backend, unless that is already done. */
  method RunRecovery(r: Roles, p: Progress, env: Environment, trace: Trace, primary: Option<Outcome>)
    returns (done: Trace, longer: Trace, error: Option<Outcome>, safe: bool)
    requires IsFirstFailure(primary, trace) && !Unsafe(trace)
    ensures longer == trace + done && Runs(done, RecoveryCalls(r, p), env, |trace|)
    ensures IsFirstFailure(error, longer) && (safe <==> !Unsafe(longer))
  {
    hide IsFirstFailure, Unsafe;
    done, longer, error, safe := [], trace, primary, true;
    if p.stopAttempted && (!p.restartCompleted || !p.recoveredCompleted) {
      var passed;
      done, longer, error, passed, safe := RunRestart(r, p, env, trace, primary);
      if passed {
        var more;
        ghost var restart := done;
        more, longer, error, safe := RunBackend(r, p, env, longer, error);
        RunsOn(restart, more, RestartCalls(r, p), BackendCalls(r, p), env, |trace|);
        done := done + more;
      } else {
        RunsStops(done, RestartCalls(r, p), BackendCalls(r, p), env, |trace|);
      }
    }
  }

  /** The try block of the plan. */
  method RunMain(r: Roles, n: nat, env: Environment)
    returns (main: Trace, error: Option<Outcome>, progress: Progress, upAttempted: bool)
    requires DistinctRoles(r)
    ensures Runs(main, MainCalls(r, n), env, 0) && IsFirstFailure(error, main)
    ensures progress == ProgressOf(r, main) && (upAttempted <==> 3 <= |main|)
  {
    var opening, failure;
    opening, failure, upAttempted := RunOpening(r, env);
    main, error, progress := RunLoop(r, n, env, opening, failure);
  }

  /** Drop the lifecycle database, unless the main block already did. */
  method RunDrop(r: Roles, p: Progress, env: Environment, trace: Trace, primary: Option<Outcome>)
    returns (done: Trace, longer: Trace, error: Option<Outcome>, safe: bool)
    requires IsFirstFailure(primary, trace) && !Unsafe(trace)
    ensures longer == trace + done && Runs(done, DropCalls(r, p), env, |trace|)
    ensures IsFirstFailure(error, longer) && (safe <==> !Unsafe(longer))
  {
    done, longer, error, safe := [], trace, primary, true;
    if p.resetAttempted && !p.dropCompleted && r.drop.Some? {
      var passed;
      done := [Execute(Run(r.drop.value), env, |trace|)];
      longer, error, passed, safe := RunCleanupStep(Run(r.drop.value), env, trace, primary);
    }
  }

  /** Take the stack down, unless it was never attempted or is to be kept. */
  method RunDown(r: Roles, keep: bool, upAttempted: bool, ghost main: Trace, env: Environment,
                 trace: Trace, primary: Option<Outcome>)
    returns (done: Trace, longer: Trace, error: Option<Outcome>)
    requires IsFirstFailure(primary, trace) && !Unsafe(trace) && (upAttempted <==> 3 <= |main|)
    ensures longer == trace + done && Runs(done, DownCalls(r, keep, main), env, |trace|)
    ensures IsFirstFailure(error, longer)
  {
    done, longer, error := [], trace, primary;
    if upAttempted && r.cleanup.Some? && !keep {
      var passed, safe;
      done := [Execute(Run(r.cleanup.value), env, |trace|)];
      longer, error, passed, safe := RunCleanupStep(Run(r.cleanup.value), env, trace, primary);
    }
  }

  /** The finally block: the three undoing blocks, each passed over once an error was unsafe. */
  method RunUndoing(r: Roles, keep: bool, env: Environment, p: Progress, upAttempted: bool, main: Trace,
                    failure: Option<Outcome>)
    returns (trace: Trace, primary: Option<Outcome>, ghost parts: Parts)
    requires IsFirstFailure(failure, main) && (upAttempted <==> 3 <= |main|)
    requires failure.Some? ==> failure.value.Failed?
    requires Unsafe(main) <==> failure.Some? && failure.value.unsafe
    ensures parts.main == main && trace == parts.All() && IsFirstFailure(primary, trace)
    ensures Runs(parts.recovery, Guarded(!Unsafe(main), RecoveryCalls(r, p)), env, |main|)
    ensures Runs(parts.drop, Guarded(!Unsafe(parts.Upto2()), DropCalls(r, p)), env, |parts.Upto2()|)
    ensures Runs(parts.down, Guarded(!Unsafe(parts.Upto3()), DownCalls(r, keep, main)), env, |parts.Upto3()|)
  {
    hide IsFirstFailure, Unsafe, Runs;
    trace, primary := main, failure;
    var cleanupSafe := !(failure.Some? && failure.value.unsafe);
    var recovery, drop, down := [], [], [];
    RunsNothing(env, |trace|);
    if cleanupSafe {
      recovery, trace, primary, cleanupSafe := RunRecovery(r, p, env, trace, primary);
    }
    assert trace == main + recovery;
    RunsNothing(env, |trace|);
    if cleanupSafe {
      drop, trace, primary, cleanupSafe := RunDrop(r, p, env, trace, primary);
    }
    assert trace == main + recovery + drop;
    RunsNothing(env, |trace|);
    if cleanupSafe {
      down, trace, primary := RunDown(r, keep, upAttempted, main, env, trace, primary);
    }
    assert trace == main + recovery + drop + down;
    parts := Parts(main, recovery, drop, down);
  }

  method RunPlan(r: Roles, n: nat, keep: bool, env: Environment)
    returns (trace: Trace, primary: Option<Outcome>, ghost parts: Parts)
    requires DistinctRoles(r)
    ensures trace == parts.All() && IsPlanRun(r, n, keep, env, parts)
    ensures IsFirstFailure(primary, trace)
  {
    var main, mainError, progress, upAttempted := RunMain(r, n, env);
    UnsafeByError(main, MainCalls(r, n), env, mainError);
    trace, primary, parts := RunUndoing(r, keep, env, progress, upAttempted, main, mainError);
  }

  /** The whole plan. */
  method ExecuteSmokeCommandPlan(commands: seq<Step>, keep: bool, env: Environment)
    returns (trace: Trace, primary: Option<Outcome>, ghost parts: Parts)
    ensures trace == parts.All()
    ensures IsPlanRun(RolesOf(commands), |commands|, keep, env, parts)
    ensures IsFirstFailure(primary, trace)
  {
    RolesAreDistinct(commands);
    trace, primary, parts := RunPlan(RolesOf(commands), |commands|, keep, env);
  }
}
