/** Compensation and worst-case time of every run of the smoke plan. */
module SmokePlanTheorems {
  import opened Options
  import opened SmokePlan

  // ---------- the built command list ----------

  predicate Absent(c: seq<Step>, name: StepName) {
    forall i :: 0 <= i < |c| ==> c[i].name != name
  }

  /** The name is first found at index k. */
  predicate At(c: seq<Step>, name: StepName, k: int) {
    0 <= k < |c| && c[k].name == name && Absent(c[..k], name)
  }

  lemma FindAt(c: seq<Step>, name: StepName, k: nat)
    requires At(c, name, k)
    ensures Find(c, name) == Some(k)
  {
    FindNamed(c, name);
    assert forall i :: 0 <= i < k ==> c[i] == c[..k][i];
  }

  lemma FindAbsent(c: seq<Step>, name: StepName)
    requires Absent(c, name)
    ensures Find(c, name) == None
  {
    FindNamed(c, name);
  }

  lemma AtLeft(a: seq<Step>, b: seq<Step>, name: StepName, k: int)
    requires At(a, name, k)
    ensures At(a + b, name, k)
  {
    assert (a + b)[..k] == a[..k];
  }

  lemma AtRight(a: seq<Step>, b: seq<Step>, name: StepName, k: int)
    requires Absent(a, name) && At(b, name, k)
    ensures At(a + b, name, |a| + k)
  {
    assert (a + b)[..|a| + k] == a + b[..k];
  }

  predicate IsDependencyName(name: StepName) {
    name.StopDependency? || name.ObserveReadinessFailure? || name.StartDependency? || name.RecoverReadiness?
  }

  lemma {:induction false} DependenciesLack(ds: seq<Dependency>, wait: int, name: StepName)
    requires !IsDependencyName(name)
    ensures Absent(DependencyRecoveries(ds, wait), name)
    ensures |DependencyRecoveries(ds, wait)| == 4 * |ds|
  {
    if ds != [] {
      DependenciesLack(ds[1..], wait, name);
    }
  }

  function FindingsCount(profile: TrustProfile): nat { if profile.TrustedLocal? then 5 else 0 }

  function JourneyCount(profile: TrustProfile): nat { if profile.TrustedLocal? then 6 else 4 }

  /** Everything before the findings commands: 39 steps. */
  function Front(wait: int): seq<Step> {
    BringUpCommands(wait) + DependencyRecoveries(REQUIRED_WORKER_DEPENDENCIES, wait) + PostFaultCommands()
  }

  function Back(profile: TrustProfile): seq<Step> {
    FindingsCommands(profile) + (LifecycleCommands() + JourneyCommands(profile))
  }

  lemma BuiltIsFrontAndBack(wait: int, profile: TrustProfile)
    requires 1 <= wait
    ensures BuildSmokeCommands(wait, profile) == Some(Front(wait) + Back(profile))
    ensures |Front(wait)| == 39 && |Back(profile)| == 5 + FindingsCount(profile) + JourneyCount(profile)
  {
    DependenciesLack(REQUIRED_WORKER_DEPENDENCIES, wait, Config);
    var f, l, j := FindingsCommands(profile), LifecycleCommands(), JourneyCommands(profile);
    assert Front(wait) + f + l + j == Front(wait) + (f + (l + j));
  }

  predicate IsBackName(name: StepName) {
    name == LifecycleReset || name == LifecycleDrop || name == FindingsStop
    || name == FindingsRestart || name == FindingsBackendRecovered
  }

  lemma FrontLacks(wait: int, name: StepName)
    requires IsBackName(name)
    ensures Absent(Front(wait), name)
  {
    DependenciesLack(REQUIRED_WORKER_DEPENDENCIES, wait, name);
    assert Absent(BringUpCommands(wait), name);
    assert Absent(PostFaultCommands(), name);
  }

  lemma AtFront(wait: int, profile: TrustProfile, name: StepName, k: nat)
    requires 1 <= wait && At(BringUpCommands(wait), name, k)
    ensures Find(BuildSmokeCommands(wait, profile).value, name) == Some(k)
  {
    BuiltIsFrontAndBack(wait, profile);
    var deps := DependencyRecoveries(REQUIRED_WORKER_DEPENDENCIES, wait);
    AtLeft(BringUpCommands(wait), deps, name, k);
    AtLeft(BringUpCommands(wait) + deps, PostFaultCommands(), name, k);
    AtLeft(Front(wait), Back(profile), name, k);
    FindAt(Front(wait) + Back(profile), name, k);
  }

  lemma AtFindings(wait: int, profile: TrustProfile, name: StepName, k: nat)
    requires 1 <= wait && IsBackName(name) && At(FindingsCommands(profile), name, k)
    ensures Find(BuildSmokeCommands(wait, profile).value, name) == Some(39 + k)
  {
    BuiltIsFrontAndBack(wait, profile);
    FrontLacks(wait, name);
    AtLeft(FindingsCommands(profile), LifecycleCommands() + JourneyCommands(profile), name, k);
    AtRight(Front(wait), Back(profile), name, k);
    FindAt(Front(wait) + Back(profile), name, 39 + k);
  }

  lemma AtLifecycle(wait: int, profile: TrustProfile, name: StepName, k: nat)
    requires 1 <= wait && IsBackName(name) && Absent(FindingsCommands(profile), name)
    requires At(LifecycleCommands(), name, k)
    ensures Find(BuildSmokeCommands(wait, profile).value, name) == Some(39 + FindingsCount(profile) + k)
  {
    BuiltIsFrontAndBack(wait, profile);
    FrontLacks(wait, name);
    AtLeft(LifecycleCommands(), JourneyCommands(profile), name, k);
    AtRight(FindingsCommands(profile), LifecycleCommands() + JourneyCommands(profile), name, k);
    AtRight(Front(wait), Back(profile), name, FindingsCount(profile) + k);
    FindAt(Front(wait) + Back(profile), name, 39 + FindingsCount(profile) + k);
  }

  lemma HardenedLacks(wait: int, name: StepName)
    requires 1 <= wait && (name == FindingsStop || name == FindingsRestart || name == FindingsBackendRecovered)
    ensures Find(BuildSmokeCommands(wait, Hardened).value, name) == None
  {
    BuiltIsFrontAndBack(wait, Hardened);
    FrontLacks(wait, name);
    assert Absent(LifecycleCommands(), name);
    assert Absent(JourneyCommands(Hardened), name);
    assert Absent(Front(wait) + Back(Hardened), name);
    FindAbsent(Front(wait) + Back(Hardened), name);
  }

  function BuiltRoles(profile: TrustProfile): Roles {
    var f := FindingsCount(profile);
    Roles(Some(0), Some(1), Some(2), Some(3), Some(39 + f), Some(43 + f),
          if f > 0 then Some(39) else None, if f > 0 then Some(41) else None, if f > 0 then Some(42) else None,
          Some(43 + f + JourneyCount(profile)))
  }

  lemma OpeningRoles(wait: int, profile: TrustProfile)
    requires 1 <= wait
    ensures var c := BuildSmokeCommands(wait, profile).value;
            && Find(c, Config) == Some(0) && Find(c, Build) == Some(1)
            && Find(c, Up) == Some(2) && Find(c, OpensearchInit) == Some(3)
  {
    var up := BringUpCommands(wait);
    assert At(up, Config, 0) && At(up, Build, 1) && At(up, Up, 2) && At(up, OpensearchInit, 3);
    AtFront(wait, profile, Config, 0);
    AtFront(wait, profile, Build, 1);
    AtFront(wait, profile, Up, 2);
    AtFront(wait, profile, OpensearchInit, 3);
  }

  lemma FindingsRoles(wait: int, profile: TrustProfile)
    requires 1 <= wait
    ensures var c, r := BuildSmokeCommands(wait, profile).value, BuiltRoles(profile);
            Find(c, FindingsStop) == r.stop && Find(c, FindingsRestart) == r.restart
            && Find(c, FindingsBackendRecovered) == r.recovered
  {
    if profile.TrustedLocal? {
      var c := FindingsCommands(profile);
      assert At(c, FindingsStop, 0) && At(c, FindingsRestart, 2) && At(c, FindingsBackendRecovered, 3);
      AtFindings(wait, profile, FindingsStop, 0);
      AtFindings(wait, profile, FindingsRestart, 2);
      AtFindings(wait, profile, FindingsBackendRecovered, 3);
    } else {
      HardenedLacks(wait, FindingsStop);
      HardenedLacks(wait, FindingsRestart);
      HardenedLacks(wait, FindingsBackendRecovered);
    }
  }

  lemma LifecyclePlaces(profile: TrustProfile)
    ensures At(LifecycleCommands(), LifecycleReset, 0) && At(LifecycleCommands(), LifecycleDrop, 4)
    ensures Absent(FindingsCommands(profile), LifecycleReset) && Absent(FindingsCommands(profile), LifecycleDrop)
  {
  }

  lemma LifecycleRoles(wait: int, profile: TrustProfile)
    requires 1 <= wait
    ensures var c, r := BuildSmokeCommands(wait, profile).value, BuiltRoles(profile);
            Find(c, LifecycleReset) == r.reset && Find(c, LifecycleDrop) == r.drop
  {
    LifecyclePlaces(profile);
    AtLifecycle(wait, profile, LifecycleReset, 0);
    AtLifecycle(wait, profile, LifecycleDrop, 4);
  }

  lemma RolesOfBuilt(wait: int, profile: TrustProfile)
    requires 1 <= wait
    ensures RolesOf(BuildSmokeCommands(wait, profile).value) == BuiltRoles(profile)
    ensures |BuildSmokeCommands(wait, profile).value| == 44 + FindingsCount(profile) + JourneyCount(profile)
  {
    OpeningRoles(wait, profile);
    FindingsRoles(wait, profile);
    LifecycleRoles(wait, profile);
    BuiltIsFrontAndBack(wait, profile);
  }

  // ---------- safety and compensation ----------

  predicate UnsafeEntry(e: Entry) {
    e.outcome.Failed? && e.outcome.unsafe
  }

  /** Only the last entry can be unsafe. */
  predicate StopsAtUnsafe(trace: Trace) {
    forall i :: 0 <= i < |trace| - 1 ==> !UnsafeEntry(trace[i])
  }

  lemma BlockStops(before: Trace, block: Trace, calls: seq<Call>, env: Environment, base: nat)
    requires StopsAtUnsafe(before)
    requires Runs(block, Guarded(!Unsafe(before), calls), env, base)
    ensures StopsAtUnsafe(before + block)
  {
  }

  /** No step runs after a cleanup-unsafe error. */
  lemma NothingAfterUnsafe(r: Roles, n: nat, keep: bool, env: Environment, p: Parts)
    requires IsPlanRun(r, n, keep, env, p)
    ensures StopsAtUnsafe(p.All())
  {
    var progress := ProgressOf(r, p.main);
    BlockStops(p.main, p.recovery, RecoveryCalls(r, progress), env, |p.main|);
    BlockStops(p.Upto2(), p.drop, DropCalls(r, progress), env, |p.Upto2()|);
    BlockStops(p.Upto3(), p.down, DownCalls(r, keep, p.main), env, |p.Upto3()|);
  }

  lemma SafeAll(p: Parts)
    requires !Unsafe(p.All())
    ensures !Unsafe(p.main) && !Unsafe(p.Upto2()) && !Unsafe(p.Upto3())
  {
    UnsafeConcat(p.Upto3(), p.down);
    UnsafeConcat(p.Upto2(), p.drop);
    UnsafeConcat(p.main, p.recovery);
  }

  /** Every attempt of one command is followed by an attempt of the other. */
  ghost predicate Followed(trace: Trace, cause: Option<nat>, undo: Option<nat>) {
    cause.Some? && undo.Some? ==>
      forall i :: 0 <= i < |trace| && trace[i].call == Run(cause.value) ==>
        exists j :: i < j < |trace| && trace[j].call == Run(undo.value)
  }

  predicate Before(a: Option<nat>, b: Option<nat>) {
    a.Some? && b.Some? ==> a.value < b.value
  }

  /** The list is in an order in which each cause comes before what undoes it, and its last
      command has no other role. */
  predicate WellPlaced(r: Roles) {
    && DistinctRoles(r) && Before(r.stop, r.restart) && Before(r.restart, r.recovered) && Before(r.reset, r.drop)
    && NotInOpening(r, r.cleanup)
    && (r.cleanup.Some? ==> r.cleanup != r.restart && r.cleanup != r.recovered && r.cleanup != r.drop)
    && (r.stop.Some? ==> r.stop != r.recovered && r.stop != r.drop && r.stop != r.cleanup)
    && (r.reset.Some? ==> r.reset != r.restart && r.reset != r.recovered && r.reset != r.cleanup)
    && Apart(r.restart, r.drop)
  }

  lemma BuiltIsWellPlaced(profile: TrustProfile)
    ensures WellPlaced(BuiltRoles(profile))
  {
  }

  /** The loop takes the commands in list order, each at most once, never the last one. */
  lemma {:induction false} LoopOrder(r: Roles, n: nat)
    ensures forall i :: 0 <= i < |LoopCalls(r, n)| ==>
              LoopCalls(r, n)[i].Run? && LoopCalls(r, n)[i].index < n && !Skipped(r, LoopCalls(r, n)[i].index)
    ensures forall i, j :: 0 <= i < j < |LoopCalls(r, n)| ==> LoopCalls(r, n)[i].index < LoopCalls(r, n)[j].index
  {
    if n > 0 {
      LoopOrder(r, n - 1);
    }
  }

  lemma MainOrder(r: Roles, n: nat, env: Environment, main: Trace, i: nat, j: nat, a: Option<nat>, b: Option<nat>)
    requires Runs(main, MainCalls(r, n), env, 0) && i < |main| && j < |main|
    requires a.Some? && b.Some? && a.value < b.value && NotInOpening(r, a) && NotInOpening(r, b)
    requires main[i].call == Run(a.value) && main[j].call == Run(b.value)
    ensures i < j
  {
    LoopOrder(r, n);
    assert i >= 5 && j >= 5;
    assert LoopCalls(r, n)[i - 5] == MainCalls(r, n)[i] && LoopCalls(r, n)[j - 5] == MainCalls(r, n)[j];
  }

  lemma CompletedIsAttempted(trace: Trace, index: Option<nat>) returns (j: nat)
    requires Completed(trace, index)
    ensures j < |trace| && trace[j].call == Run(index.value)
  {
    j :| 0 <= j < |trace| && trace[j].call == Run(index.value) && trace[j].outcome.Passed?;
  }

  /** An attempt to stop OpenSearch is followed by an attempt to restart it. */
  lemma StopIsUndone(r: Roles, n: nat, keep: bool, env: Environment, p: Parts)
    requires WellPlaced(r) && IsPlanRun(r, n, keep, env, p) && !Unsafe(p.All())
    ensures Followed(p.All(), r.stop, r.restart)
  {
    SafeAll(p);
    var all := p.All();
    if r.stop.Some? && r.restart.Some? {
      forall i | 0 <= i < |all| && all[i].call == Run(r.stop.value)
        ensures exists j :: i < j < |all| && all[j].call == Run(r.restart.value)
      {
        OnlyInMain(r, n, keep, env, p, i, r.stop);
        if Completed(p.main, r.restart) {
          var j := CompletedIsAttempted(p.main, r.restart);
          MainOrder(r, n, env, p.main, i, j, r.stop, r.restart);
          assert all[j] == p.main[j];
        } else {
          assert Attempted(p.main, r.stop);
          assert all[|p.main|] == p.recovery[0];
        }
      }
    }
  }

  /** The steps that have to be undone are run by the main block only. */
  lemma OnlyInMain(r: Roles, n: nat, keep: bool, env: Environment, p: Parts, i: nat, index: Option<nat>)
    requires IsPlanRun(r, n, keep, env, p) && i < |p.All()|
    requires index.Some? && p.All()[i].call == Run(index.value)
    requires index != r.restart && index != r.recovered && index != r.drop && index != r.cleanup
    ensures i < |p.main| && p.main[i] == p.All()[i]
  {
    var progress := ProgressOf(r, p.main);
    UndoingCalls(r, progress, keep, p.main);
    BlockLacks(p.recovery, Guarded(!Unsafe(p.main), RecoveryCalls(r, progress)), env, |p.main|, Run(index.value));
    BlockLacks(p.drop, Guarded(!Unsafe(p.Upto2()), DropCalls(r, progress)), env, |p.Upto2()|, Run(index.value));
    BlockLacks(p.down, Guarded(!Unsafe(p.Upto3()), DownCalls(r, keep, p.main)), env, |p.Upto3()|, Run(index.value));
    EntryInPart(p, i);
  }

  lemma EntryInPart(p: Parts, i: nat)
    requires i < |p.All()|
    ensures if i < |p.main| then p.All()[i] == p.main[i]
            else p.All()[i] in p.recovery || p.All()[i] in p.drop || p.All()[i] in p.down
  {
  }

  lemma BlockLacks(block: Trace, calls: seq<Call>, env: Environment, base: nat, call: Call)
    requires Runs(block, calls, env, base) && call !in calls
    ensures forall e <- block :: e.call != call
  {
  }

  lemma UndoingCalls(r: Roles, p: Progress, keep: bool, main: Trace)
    ensures forall c <- RecoveryCalls(r, p) :: c == CallFor(r.restart) || c == CallFor(r.recovered)
    ensures forall c <- RecoveryCalls(r, p) + DropCalls(r, p) + DownCalls(r, keep, main) :: c.Run?
    ensures forall c <- DropCalls(r, p) :: c == CallFor(r.drop)
    ensures forall c <- DownCalls(r, keep, main) :: c == CallFor(r.cleanup)
  {
  }

  /** A reset of the lifecycle database is followed by an attempt to drop it. */
  lemma ResetIsUndone(r: Roles, n: nat, keep: bool, env: Environment, p: Parts)
    requires WellPlaced(r) && IsPlanRun(r, n, keep, env, p) && !Unsafe(p.All()) && r.reset != r.drop
    ensures Followed(p.All(), r.reset, r.drop)
  {
    SafeAll(p);
    var all := p.All();
    if r.reset.Some? && r.drop.Some? {
      forall i | 0 <= i < |all| && all[i].call == Run(r.reset.value)
        ensures exists j :: i < j < |all| && all[j].call == Run(r.drop.value)
      {
        OnlyInMain(r, n, keep, env, p, i, r.reset);
        if Completed(p.main, r.drop) {
          var j := CompletedIsAttempted(p.main, r.drop);
          MainOrder(r, n, env, p.main, i, j, r.reset, r.drop);
          assert all[j] == p.main[j];
        } else {
          assert Attempted(p.main, r.reset);
          assert all[|p.Upto2()|] == p.drop[0];
        }
      }
    }
  }

  /** Every command the loop does not leave out has its turn. */
  lemma {:induction false} LoopHas(r: Roles, n: nat, k: nat) returns (i: nat)
    requires k < n && !Skipped(r, k)
    ensures i < |LoopCalls(r, n)| && LoopCalls(r, n)[i] == Run(k)
  {
    if k == n - 1 {
      i := |LoopCalls(r, n)| - 1;
    } else {
      i := LoopHas(r, n - 1, k);
    }
  }

  /** The backend was seen to recover only after the restart had passed. */
  lemma RecoveredAfterRestart(r: Roles, n: nat, env: Environment, main: Trace)
    requires WellPlaced(r) && Runs(main, MainCalls(r, n), env, 0)
    requires r.restart.Some? && Completed(main, r.recovered)
    ensures Completed(main, r.restart)
  {
    LoopOrder(r, n);
    var j := CompletedIsAttempted(main, r.recovered);
    assert j >= 5 && LoopCalls(r, n)[j - 5] == MainCalls(r, n)[j];
    var i := LoopHas(r, n, r.restart.value);
    assert MainCalls(r, n)[i + 5] == Run(r.restart.value);
    assert main[i + 5].call == Run(r.restart.value) && main[i + 5].outcome.Passed?;
  }

  /** Where a restart can stand in a run. */
  lemma RestartPlaces(r: Roles, n: nat, keep: bool, env: Environment, p: Parts, i: nat)
    requires WellPlaced(r) && IsPlanRun(r, n, keep, env, p) && r.restart.Some?
    requires i < |p.All()| && p.All()[i].call == Run(r.restart.value)
    ensures i < |p.main| || (i == |p.main| && p.recovery != [] && !Completed(p.main, r.restart))
  {
    var progress := ProgressOf(r, p.main);
    UndoingCalls(r, progress, keep, p.main);
    var call := Run(r.restart.value);
    BlockLacks(p.drop, Guarded(!Unsafe(p.Upto2()), DropCalls(r, progress)), env, |p.Upto2()|, call);
    BlockLacks(p.down, Guarded(!Unsafe(p.Upto3()), DownCalls(r, keep, p.main)), env, |p.Upto3()|, call);
    if |p.main| <= i {
      if |p.Upto2()| <= i {
        EntryLate(p, i);
      } else {
        assert p.All()[i] == p.recovery[i - |p.main|];
      }
    }
  }

  lemma EntryLate(p: Parts, i: nat)
    requires |p.Upto2()| <= i < |p.All()|
    ensures p.All()[i] in p.drop || p.All()[i] in p.down
  {
  }

  /** A restart that passed after an attempted stop is followed by an attempt to see the
      backend recover. */
  lemma RestartIsAwaited(r: Roles, n: nat, keep: bool, env: Environment, p: Parts)
    requires WellPlaced(r) && IsPlanRun(r, n, keep, env, p) && !Unsafe(p.All())
    requires Attempted(p.All(), r.stop) && r.restart.Some? && r.recovered.Some?
    ensures forall i :: 0 <= i < |p.All()| && p.All()[i].call == Run(r.restart.value) && p.All()[i].outcome.Passed? ==>
              exists j :: i < j < |p.All()| && p.All()[j].call == Run(r.recovered.value)
  {
    hide IsPlanRun, Unsafe, WellPlaced;
    var all := p.All();
    forall i | 0 <= i < |all| && all[i].call == Run(r.restart.value) && all[i].outcome.Passed?
      ensures exists j :: i < j < |all| && all[j].call == Run(r.recovered.value)
    {
      var j := AwaitedAt(r, n, keep, env, p, i);
    }
  }

  lemma AwaitedAt(r: Roles, n: nat, keep: bool, env: Environment, p: Parts, i: nat) returns (j: nat)
    requires WellPlaced(r) && IsPlanRun(r, n, keep, env, p) && !Unsafe(p.All())
    requires Attempted(p.All(), r.stop) && r.restart.Some? && r.recovered.Some?
    requires i < |p.All()| && p.All()[i].call == Run(r.restart.value) && p.All()[i].outcome.Passed?
    ensures i < j < |p.All()| && p.All()[j].call == Run(r.recovered.value)
  {
    hide Runs, Unsafe;
    StopIsInMain(r, n, keep, env, p);
    RestartPlaces(r, n, keep, env, p, i);
    assert i < |p.main| ==> p.All()[i] == p.main[i];
    if i < |p.main| && Completed(p.main, r.recovered) {
      j := CompletedIsAttempted(p.main, r.recovered);
      MainOrder(r, n, env, p.main, i, j, r.restart, r.recovered);
      assert p.All()[j] == p.main[j];
    } else {
      if Completed(p.main, r.recovered) {
        RecoveredAfterRestart(r, n, env, p.main);
      }
      assert i < |p.main| ==> Completed(p.main, r.restart);
      assert |p.main| <= i ==> p.All()[i] == p.recovery[0];
      RecoveryAwaits(r, n, keep, env, p);
      j := |p.Upto2()| - 1;
      assert p.All()[j] == p.recovery[|p.recovery| - 1];
    }
  }

  /** A recovery whose restart is done, in the main block or by itself, ends with the wait. */
  lemma RecoveryAwaits(r: Roles, n: nat, keep: bool, env: Environment, p: Parts)
    requires WellPlaced(r) && IsPlanRun(r, n, keep, env, p) && !Unsafe(p.All())
    requires Attempted(p.main, r.stop) && r.restart.Some? && r.recovered.Some? && !Completed(p.main, r.recovered)
    requires Completed(p.main, r.restart) || (p.recovery != [] && p.recovery[0].outcome.Passed?)
    ensures p.recovery != [] && p.recovery[|p.recovery| - 1].call == Run(r.recovered.value)
    ensures !Completed(p.main, r.restart) ==> 1 < |p.recovery|
  {
    SafeAll(p);
  }

  lemma StopIsInMain(r: Roles, n: nat, keep: bool, env: Environment, p: Parts)
    requires WellPlaced(r) && IsPlanRun(r, n, keep, env, p) && Attempted(p.All(), r.stop)
    ensures Attempted(p.main, r.stop)
  {
    var s :| 0 <= s < |p.All()| && p.All()[s].call == Run(r.stop.value);
    OnlyInMain(r, n, keep, env, p, s, r.stop);
  }

  /** Once bringing the stack up was attempted, it is taken down exactly once, last, unless
      it is to be kept; otherwise it is not taken down. A list without an `up` counts as
      attempted when the step in front of it has passed. */
  lemma UpIsUndone(r: Roles, n: nat, keep: bool, env: Environment, p: Parts)
    requires WellPlaced(r) && IsPlanRun(r, n, keep, env, p) && !Unsafe(p.All()) && r.cleanup.Some?
    ensures forall i :: 0 <= i < |p.All()| ==>
              (p.All()[i].call == Run(r.cleanup.value) <==> UpTried(r, p.main) && !keep && i == |p.All()| - 1)
  {
    SafeAll(p);
    DownOnlyInDown(r, n, keep, env, p);
    UpIsThird(r, n, env, p.main);
    var all := p.All();
    forall i | 0 <= i < |p.Upto3()|
      ensures all[i].call != Run(r.cleanup.value)
    {
      assert all[i] == p.Upto3()[i];
    }
    assert |p.down| == if UpTried(r, p.main) && !keep then 1 else 0;
    if |p.down| == 1 {
      assert all[|p.Upto3()|] == p.down[0];
    }
  }

  predicate UpTried(r: Roles, main: Trace) {
    if r.up.Some? then Attempted(main, r.up) else Completed(main, r.build)
  }

  lemma UpIsThird(r: Roles, n: nat, env: Environment, main: Trace)
    requires DistinctRoles(r) && Runs(main, MainCalls(r, n), env, 0)
    ensures UpTried(r, main) <==> 3 <= |main|
  {
    OpeningOnlyInOpening(r, n, env, main);
    if 3 <= |main| {
      assert main[1] == Execute(CallFor(r.build), env, 1) && main[1].outcome.Passed?;
      assert main[2].call == CallFor(r.up);
    }
  }

  /** The commands of the opening run nowhere else in the main block. */
  lemma OpeningOnlyInOpening(r: Roles, n: nat, env: Environment, main: Trace)
    requires DistinctRoles(r) && Runs(main, MainCalls(r, n), env, 0)
    ensures forall i, k :: 0 <= i < |main| && main[i].call == Run(k) && !NotInOpening(r, Some(k)) ==>
              i < 4 && main[i].call == OpeningCalls(r)[i]
    ensures forall i :: 5 <= i < |main| ==> main[i].call.Run? && NotInOpening(r, Some(main[i].call.index))
  {
    LoopOrder(r, n);
    forall i | 5 <= i < |main|
      ensures main[i].call.Run? && NotInOpening(r, Some(main[i].call.index))
    {
      assert main[i].call == MainCalls(r, n)[i] == LoopCalls(r, n)[i - 5];
    }
  }

  predicate ShowsOutcome(e: Entry, env: Environment, k: nat) {
    e.outcome == if e.call.Missing? then Failed(0, 0, false) else env(k)
  }

  lemma BlockOutcomes(block: Trace, calls: seq<Call>, env: Environment, base: nat)
    requires Runs(block, calls, env, base)
    ensures forall i :: 0 <= i < |block| ==> ShowsOutcome(block[i], env, base + i)
  {
  }

  lemma PartsShow(p: Parts, env: Environment)
    requires forall i :: 0 <= i < |p.main| ==> ShowsOutcome(p.main[i], env, i)
    requires forall i :: 0 <= i < |p.recovery| ==> ShowsOutcome(p.recovery[i], env, |p.main| + i)
    requires forall i :: 0 <= i < |p.drop| ==> ShowsOutcome(p.drop[i], env, |p.Upto2()| + i)
    requires forall i :: 0 <= i < |p.down| ==> ShowsOutcome(p.down[i], env, |p.Upto3()| + i)
    ensures forall i :: 0 <= i < |p.All()| ==> ShowsOutcome(p.All()[i], env, i)
  {
    hide ShowsOutcome;
    var all := p.All();
    forall i | 0 <= i < |all|
      ensures ShowsOutcome(all[i], env, i)
    {
      if i < |p.main| {
        assert all[i] == p.main[i];
      } else if i < |p.Upto2()| {
        assert all[i] == p.recovery[i - |p.main|];
      } else if i < |p.Upto3()| {
        assert all[i] == p.drop[i - |p.Upto2()|];
      } else {
        assert all[i] == p.down[i - |p.Upto3()|];
      }
    }
  }

  /** A step the list lacks fails at once and safely; every other entry is what its call, the
      i-th of the run, came to. */
  lemma OutcomesInOrder(r: Roles, n: nat, keep: bool, env: Environment, p: Parts)
    requires IsPlanRun(r, n, keep, env, p)
    ensures forall i :: 0 <= i < |p.All()| ==> ShowsOutcome(p.All()[i], env, i)
  {
    hide Runs, Unsafe, Guarded, ProgressOf, MainCalls, RecoveryCalls, DropCalls, DownCalls, ShowsOutcome;
    var progress := ProgressOf(r, p.main);
    BlockOutcomes(p.main, MainCalls(r, n), env, 0);
    BlockOutcomes(p.recovery, Guarded(!Unsafe(p.main), RecoveryCalls(r, progress)), env, |p.main|);
    BlockOutcomes(p.drop, Guarded(!Unsafe(p.Upto2()), DropCalls(r, progress)), env, |p.Upto2()|);
    BlockOutcomes(p.down, Guarded(!Unsafe(p.Upto3()), DownCalls(r, keep, p.main)), env, |p.Upto3()|);
    PartsShow(p, env);
  }

  // ---------- order ----------

  predicate PassedBefore(trace: Trace, i: nat, call: Call)
    requires i <= |trace|
  {
    exists j :: 0 <= j < i && trace[j].call == call && trace[j].outcome.Passed?
  }

  /** The stack is configured, built, brought up, its OpenSearch initialised and its nginx
      probed before anything is tried on it, and taken down only once it was built. */
  predicate InTurn(r: Roles, trace: Trace, i: nat)
    requires i < |trace|
  {
    match trace[i].call
    case Missing => true
    case Probe => PassedBefore(trace, i, CallFor(r.opensearchInit))
    case Run(k) =>
      if r.config == Some(k) then i == 0
      else if r.build == Some(k) then PassedBefore(trace, i, CallFor(r.config))
      else if r.up == Some(k) then
        PassedBefore(trace, i, CallFor(r.config)) && PassedBefore(trace, i, CallFor(r.build))
      else if r.opensearchInit == Some(k) then PassedBefore(trace, i, CallFor(r.up))
      else if r.cleanup == Some(k) then PassedBefore(trace, i, CallFor(r.build))
      else PassedBefore(trace, i, Probe)
  }

  lemma PassedEarly(r: Roles, n: nat, env: Environment, main: Trace, trace: Trace, i: nat, j: nat)
    requires Runs(main, MainCalls(r, n), env, 0) && main <= trace
    requires j + 1 < |main| && j < i <= |trace|
    ensures PassedBefore(trace, i, MainCalls(r, n)[j])
  {
    assert trace[j] == main[j] == Execute(MainCalls(r, n)[j], env, j);
  }

  lemma MainInTurn(r: Roles, n: nat, env: Environment, main: Trace, trace: Trace, i: nat)
    requires WellPlaced(r) && Runs(main, MainCalls(r, n), env, 0) && main <= trace && i < |main|
    ensures InTurn(r, trace, i)
  {
    OpeningOnlyInOpening(r, n, env, main);
    assert trace[i].call == main[i].call == MainCalls(r, n)[i];
    forall j | 0 <= j < i
      ensures PassedBefore(trace, i, MainCalls(r, n)[j])
    {
      PassedEarly(r, n, env, main, trace, i, j);
    }
    assert i > 0 ==> PassedBefore(trace, i, MainCalls(r, n)[0]);
    assert i > 1 ==> PassedBefore(trace, i, MainCalls(r, n)[1]);
    assert i > 2 ==> PassedBefore(trace, i, MainCalls(r, n)[2]);
    assert i > 3 ==> PassedBefore(trace, i, MainCalls(r, n)[3]);
    assert i > 4 ==> PassedBefore(trace, i, MainCalls(r, n)[4]);
  }

  lemma UndoingCause(r: Roles, n: nat, keep: bool, env: Environment, p: Parts, i: nat)
    requires WellPlaced(r) && IsPlanRun(r, n, keep, env, p) && |p.main| <= i < |p.All()|
    ensures var call := p.All()[i].call;
            || (call.Run? && r.cleanup == Some(call.index) && 3 <= |p.main|)
            || (call.Run? && NotInOpening(r, Some(call.index)) && r.cleanup != Some(call.index)
                && (Attempted(p.main, r.stop) || Attempted(p.main, r.reset)))
  {
    hide Unsafe, Completed, MainCalls;
    var progress := ProgressOf(r, p.main);
    UndoingCalls(r, progress, keep, p.main);
    EntryInPart(p, i);
  }

  lemma LaterThanProbe(r: Roles, n: nat, env: Environment, main: Trace, index: Option<nat>)
    requires DistinctRoles(r) && Runs(main, MainCalls(r, n), env, 0)
    requires NotInOpening(r, index) && Attempted(main, index)
    ensures 5 < |main|
  {
    OpeningOnlyInOpening(r, n, env, main);
    var i :| 0 <= i < |main| && main[i].call == Run(index.value);
    assert main[i].call == MainCalls(r, n)[i];
  }

  /** Undoing starts only after a main block that got as far as what it undoes. */
  lemma UndoingInTurn(r: Roles, n: nat, keep: bool, env: Environment, p: Parts, i: nat)
    requires WellPlaced(r) && IsPlanRun(r, n, keep, env, p) && |p.main| <= i < |p.All()|
    ensures InTurn(r, p.All(), i)
  {
    hide Runs, Attempted;
    UndoingCause(r, n, keep, env, p, i);
    assert p.main <= p.All();
    if r.cleanup == Some(p.All()[i].call.index) {
      PassedEarly(r, n, env, p.main, p.All(), i, 1);
    } else {
      if Attempted(p.main, r.stop) {
        LaterThanProbe(r, n, env, p.main, r.stop);
      } else {
        LaterThanProbe(r, n, env, p.main, r.reset);
      }
      PassedEarly(r, n, env, p.main, p.All(), i, 4);
    }
  }

  /** Every step of every run has its turn. */
  lemma StepsAreInTurn(r: Roles, n: nat, keep: bool, env: Environment, p: Parts)
    requires WellPlaced(r) && IsPlanRun(r, n, keep, env, p)
    ensures forall i :: 0 <= i < |p.All()| ==> InTurn(r, p.All(), i)
  {
    hide Runs, InTurn;
    assert p.main <= p.All();
    forall i | 0 <= i < |p.All()|
      ensures InTurn(r, p.All(), i)
    {
      if i < |p.main| {
        MainInTurn(r, n, env, p.main, p.All(), i);
      } else {
        UndoingInTurn(r, n, keep, env, p, i);
      }
    }
  }

  /** Neither the main block nor the recovery nor the drop takes the stack down. */
  lemma DownOnlyInDown(r: Roles, n: nat, keep: bool, env: Environment, p: Parts)
    requires WellPlaced(r) && IsPlanRun(r, n, keep, env, p) && r.cleanup.Some?
    ensures forall e <- p.Upto3() :: e.call != Run(r.cleanup.value)
  {
    var progress, down := ProgressOf(r, p.main), Run(r.cleanup.value);
    MainLacksDown(r, n);
    BlockLacks(p.main, MainCalls(r, n), env, 0, down);
    UndoingCalls(r, progress, keep, p.main);
    BlockLacks(p.recovery, Guarded(!Unsafe(p.main), RecoveryCalls(r, progress)), env, |p.main|, down);
    BlockLacks(p.drop, Guarded(!Unsafe(p.Upto2()), DropCalls(r, progress)), env, |p.Upto2()|, down);
  }

  lemma MainLacksDown(r: Roles, n: nat)
    requires NotInOpening(r, r.cleanup) && r.cleanup.Some?
    ensures Run(r.cleanup.value) !in MainCalls(r, n)
  {
    LoopOrder(r, n);
  }

  /** For the published command list of either profile: without an unsafe error, every
      attempted OpenSearch stop, database reset and `up` is followed by its undoing, the last
      one by a single final `down` unless the stack is kept. */
  lemma PublishedPlanIsCompensated(wait: int, profile: TrustProfile, keep: bool, env: Environment, p: Parts)
    requires 1 <= wait && !Unsafe(p.All())
    requires var commands := BuildSmokeCommands(wait, profile).value;
             IsPlanRun(RolesOf(commands), |commands|, keep, env, p)
    ensures var r := RolesOf(BuildSmokeCommands(wait, profile).value);
            && r == BuiltRoles(profile)
            && Followed(p.All(), r.stop, r.restart) && Followed(p.All(), r.reset, r.drop)
            && forall i :: 0 <= i < |p.All()| ==>
                 (p.All()[i].call == Run(r.cleanup.value) <==> Attempted(p.main, r.up) && !keep && i == |p.All()| - 1)
  {
    RolesOfBuilt(wait, profile);
    BuiltIsWellPlaced(profile);
    var r, n := BuiltRoles(profile), |BuildSmokeCommands(wait, profile).value|;
    StopIsUndone(r, n, keep, env, p);
    ResetIsUndone(r, n, keep, env, p);
    UpIsUndone(r, n, keep, env, p);
  }

  /** The first four commands and the last one are the ones left out. */
  predicate StandardRoles(r: Roles, n: nat) {
    && 5 <= n && r.config == Some(0) && r.build == Some(1) && r.up == Some(2) && r.opensearchInit == Some(3)
    && r.cleanup == Some(n - 1)
  }

  lemma {:induction false} LoopIsTheRest(r: Roles, n: nat, m: nat)
    requires StandardRoles(r, n) && 4 <= m <= n
    ensures |LoopCalls(r, m)| == (if m < n then m else n - 1) - 4
    ensures forall i :: 0 <= i < |LoopCalls(r, m)| ==> LoopCalls(r, m)[i] == Run(i + 4)
  {
    if m == 4 {
      assert LoopCalls(r, 1) == [];
      assert LoopCalls(r, 2) == [];
      assert LoopCalls(r, 3) == [];
    } else {
      LoopIsTheRest(r, n, m - 1);
    }
  }

  /** Every command in list order, the nginx probe after the fourth. */
  function ListOrder(i: nat): Call {
    if i < 4 then Run(i) else if i == 4 then Probe else Run(i - 1)
  }

  lemma MainIsTheList(r: Roles, n: nat, env: Environment, main: Trace)
    requires StandardRoles(r, n) && Runs(main, MainCalls(r, n), env, 0)
    ensures |main| <= n && forall i :: 0 <= i < |main| ==> main[i].call == ListOrder(i)
    ensures AllPassed(main) ==> |main| == n
  {
    LoopIsTheRest(r, n, n);
  }

  lemma ListCompletes(r: Roles, n: nat, env: Environment, main: Trace, index: Option<nat>)
    requires StandardRoles(r, n) && Runs(main, MainCalls(r, n), env, 0) && AllPassed(main)
    requires index.Some? ==> 4 <= index.value < n - 1
    ensures index.Some? ==> Completed(main, index)
  {
    MainIsTheList(r, n, env, main);
    if index.Some? {
      assert main[index.value + 1].call == Run(index.value);
    }
  }

  /** For the published command list of either profile: every step of every run has its turn,
      and a run whose main block passes is the list, each command once and in order, with
      nothing to undo but the stack. */
  lemma PublishedPlanIsInOrder(wait: int, profile: TrustProfile, keep: bool, env: Environment, p: Parts)
    requires 1 <= wait
    requires var commands := BuildSmokeCommands(wait, profile).value;
             IsPlanRun(RolesOf(commands), |commands|, keep, env, p)
    ensures var commands := BuildSmokeCommands(wait, profile).value;
            && (forall i :: 0 <= i < |p.All()| ==> InTurn(RolesOf(commands), p.All(), i))
            && (AllPassed(p.main) ==>
                  && |p.All()| == |commands| + (if keep then 0 else 1)
                  && forall i :: 0 <= i < |p.All()| ==> p.All()[i].call == ListOrder(i))
  {
    hide Runs, InTurn;
    RolesOfBuilt(wait, profile);
    BuiltIsWellPlaced(profile);
    var r, n := BuiltRoles(profile), |BuildSmokeCommands(wait, profile).value|;
    StepsAreInTurn(r, n, keep, env, p);
    if AllPassed(p.main) {
      PassingRunIsTheList(r, n, keep, env, p);
    }
  }

  lemma PassingRunIsTheList(r: Roles, n: nat, keep: bool, env: Environment, p: Parts)
    requires StandardRoles(r, n) && IsPlanRun(r, n, keep, env, p) && AllPassed(p.main)
    requires r.stop.Some? ==> r.restart.Some? && r.recovered.Some?
    requires r.restart.Some? ==> 4 <= r.restart.value < n - 1
    requires r.recovered.Some? ==> 4 <= r.recovered.value < n - 1
    requires r.drop.Some? ==> 4 <= r.drop.value < n - 1
    ensures |p.All()| == n + (if keep then 0 else 1)
    ensures forall i :: 0 <= i < |p.All()| ==> p.All()[i].call == ListOrder(i)
  {
    MainIsTheList(r, n, env, p.main);
    ListCompletes(r, n, env, p.main, r.restart);
    ListCompletes(r, n, env, p.main, r.recovered);
    ListCompletes(r, n, env, p.main, r.drop);
    assert p.recovery == [] && p.drop == [];
    assert p.All() == p.main + p.down;
  }

  // ---------- worst-case time ----------

  /** How long one call may take. */
  function Budget(commands: seq<Step>, call: Call): int {
    match call
    case Run(i) => if i < |commands| then commands[i].timeoutMs else 0
    case Probe => NGINX_PROBE_TIMEOUT_MS
    case Missing => 0
  }

  function SumBudget(commands: seq<Step>, calls: seq<Call>): int {
    if calls == [] then 0
    else SumBudget(commands, calls[..|calls| - 1]) + Budget(commands, calls[|calls| - 1])
  }

  function TotalMs(trace: Trace): int {
    if trace == [] then 0 else TotalMs(trace[..|trace| - 1]) + trace[|trace| - 1].outcome.ms
  }

  /** Every step settled within its own bound. */
  predicate WithinBounds(commands: seq<Step>, trace: Trace) {
    forall i :: 0 <= i < |trace| ==> trace[i].outcome.ms <= Budget(commands, trace[i].call)
  }

  predicate NonNegative(commands: seq<Step>) {
    forall i :: 0 <= i < |commands| ==> 0 <= commands[i].timeoutMs
  }

  lemma {:induction false} SumBudgetConcat(commands: seq<Step>, a: seq<Call>, b: seq<Call>)
    ensures SumBudget(commands, a + b) == SumBudget(commands, a) + SumBudget(commands, b)
  {
    if b == [] {
      assert a + b == a;
    } else {
      SumBudgetConcat(commands, a, b[..|b| - 1]);
      assert (a + b)[..|a + b| - 1] == a + b[..|b| - 1];
    }
  }

  lemma SumBudgetOne(commands: seq<Step>, call: Call)
    ensures SumBudget(commands, [call]) == Budget(commands, call)
    ensures SumBudget(commands, []) == 0
  {
    assert [call][..0] == [];
  }

  lemma {:induction false} TotalConcat(a: Trace, b: Trace)
    ensures TotalMs(a + b) == TotalMs(a) + TotalMs(b)
  {
    if b == [] {
      assert a + b == a;
    } else {
      TotalConcat(a, b[..|b| - 1]);
      assert (a + b)[..|a + b| - 1] == a + b[..|b| - 1];
    }
  }

  lemma RunsWithinBudget(commands: seq<Step>, trace: Trace, calls: seq<Call>, env: Environment, base: nat)
    requires NonNegative(commands) && Runs(trace, calls, env, base) && WithinBounds(commands, trace)
    ensures TotalMs(trace) <= SumBudget(commands, calls)
  {
    hide SumBudget, TotalMs;
    TotalWithinBudget(commands, trace, calls[..|trace|]);
    SumBudgetConcat(commands, calls[..|trace|], calls[|trace|..]);
    assert calls[..|trace|] + calls[|trace|..] == calls;
    BudgetNonNegative(commands, calls[|trace|..]);
  }

  lemma {:induction false} BudgetNonNegative(commands: seq<Step>, calls: seq<Call>)
    requires NonNegative(commands)
    ensures 0 <= SumBudget(commands, calls)
  {
    if calls != [] {
      BudgetNonNegative(commands, calls[..|calls| - 1]);
    }
  }

  lemma {:induction false} TotalWithinBudget(commands: seq<Step>, trace: Trace, calls: seq<Call>)
    requires |trace| == |calls| && forall i :: 0 <= i < |trace| ==> trace[i].call == calls[i]
    requires WithinBounds(commands, trace)
    ensures TotalMs(trace) <= SumBudget(commands, calls)
  {
    if trace != [] {
      TotalWithinBudget(commands, trace[..|trace| - 1], calls[..|calls| - 1]);
    }
  }

  /** The timeouts of the commands the loop leaves out among the first n. */
  function SkippedMs(commands: seq<Step>, r: Roles, n: nat): int
    requires n <= |commands|
  {
    if n == 0 then 0
    else SkippedMs(commands, r, n - 1) + if Skipped(r, n - 1) then commands[n - 1].timeoutMs else 0
  }

  lemma {:induction false} LoopBudget(commands: seq<Step>, r: Roles, n: nat)
    requires n <= |commands|
    ensures SumBudget(commands, LoopCalls(r, n)) + SkippedMs(commands, r, n) == SumTimeouts(commands[..n])
  {
    if n > 0 {
      LoopBudget(commands, r, n - 1);
      assert commands[..n][..n - 1] == commands[..n - 1];
      var last := if Skipped(r, n - 1) then [] else [Run(n - 1)];
      SumBudgetConcat(commands, LoopCalls(r, n - 1), last);
      SumBudgetOne(commands, Run(n - 1));
    }
  }

  lemma {:induction false} SkippedSum(commands: seq<Step>, r: Roles, n: nat)
    requires StandardRoles(r, |commands|) && 4 <= n <= |commands|
    ensures SkippedMs(commands, r, n) ==
            commands[0].timeoutMs + commands[1].timeoutMs + commands[2].timeoutMs + commands[3].timeoutMs
            + if n == |commands| then commands[n - 1].timeoutMs else 0
  {
    if n == 4 {
      assert SkippedMs(commands, r, 1) == commands[0].timeoutMs;
      assert SkippedMs(commands, r, 2) == commands[0].timeoutMs + commands[1].timeoutMs;
      assert SkippedMs(commands, r, 3) == commands[0].timeoutMs + commands[1].timeoutMs + commands[2].timeoutMs;
    } else {
      SkippedSum(commands, r, n - 1);
    }
  }

  lemma OpeningBudget(commands: seq<Step>, r: Roles)
    requires StandardRoles(r, |commands|)
    ensures SumBudget(commands, OpeningCalls(r)) ==
            commands[0].timeoutMs + commands[1].timeoutMs + commands[2].timeoutMs + commands[3].timeoutMs
            + NGINX_PROBE_TIMEOUT_MS
  {
    var t := OpeningCalls(r);
    assert t[..4][..3] == t[..3] && t[..3][..2] == t[..2] && t[..2][..1] == t[..1];
    assert SumBudget(commands, t[..1]) == Budget(commands, t[0]) + SumBudget(commands, t[..1][..0]);
    assert SumBudget(commands, t[..2]) == SumBudget(commands, t[..1]) + Budget(commands, t[1]);
    assert SumBudget(commands, t[..3]) == SumBudget(commands, t[..2]) + Budget(commands, t[2]);
    assert SumBudget(commands, t[..4]) == SumBudget(commands, t[..3]) + Budget(commands, t[3]);
  }

  lemma LoopTotal(commands: seq<Step>, r: Roles)
    requires StandardRoles(r, |commands|)
    ensures SumBudget(commands, LoopCalls(r, |commands|)) + SkippedMs(commands, r, |commands|) == SumTimeouts(commands)
  {
    LoopBudget(commands, r, |commands|);
    assert commands[..|commands|] == commands;
  }

  lemma OpeningCoversSkipped(commands: seq<Step>, r: Roles)
    requires StandardRoles(r, |commands|)
    ensures SumBudget(commands, OpeningCalls(r)) ==
            SkippedMs(commands, r, |commands|) - commands[|commands| - 1].timeoutMs + NGINX_PROBE_TIMEOUT_MS
  {
    OpeningBudget(commands, r);
    SkippedSum(commands, r, |commands|);
  }

  lemma MainBudget(commands: seq<Step>, r: Roles)
    requires StandardRoles(r, |commands|)
    ensures SumBudget(commands, MainCalls(r, |commands|)) ==
            SumTimeouts(commands) - commands[|commands| - 1].timeoutMs + NGINX_PROBE_TIMEOUT_MS
  {
    SumBudgetConcat(commands, OpeningCalls(r), LoopCalls(r, |commands|));
    OpeningCoversSkipped(commands, r);
    LoopTotal(commands, r);
  }

  function RoleMs(commands: seq<Step>, index: Option<nat>): int {
    if index.Some? then Budget(commands, Run(index.value)) else 0
  }

  lemma OptionalBudget(commands: seq<Step>, wanted: bool, index: Option<nat>)
    requires NonNegative(commands)
    ensures SumBudget(commands, if wanted && index.Some? then [Run(index.value)] else []) <= RoleMs(commands, index)
  {
    if index.Some? {
      SumBudgetOne(commands, Run(index.value));
    }
  }

  lemma RecoveryBudget(commands: seq<Step>, r: Roles, p: Progress)
    requires NonNegative(commands)
    ensures SumBudget(commands, RecoveryCalls(r, p)) <= RoleMs(commands, r.restart) + RoleMs(commands, r.recovered)
  {
    var first := if !p.restartCompleted && r.restart.Some? then [Run(r.restart.value)] else [];
    var wanted := (p.restartCompleted || r.restart.Some?) && !p.recoveredCompleted;
    var second := if wanted && r.recovered.Some? then [Run(r.recovered.value)] else [];
    OptionalBudget(commands, !p.restartCompleted, r.restart);
    OptionalBudget(commands, wanted, r.recovered);
    SumBudgetConcat(commands, first, second);
    assert RecoveryCalls(r, p) == [] || RecoveryCalls(r, p) == first + second;
  }

  lemma UndoBudgets(commands: seq<Step>, r: Roles, keep: bool, p: Progress, main: Trace)
    requires NonNegative(commands)
    ensures SumBudget(commands, DropCalls(r, p)) <= RoleMs(commands, r.drop)
    ensures SumBudget(commands, DownCalls(r, keep, main)) <= RoleMs(commands, r.cleanup)
  {
    OptionalBudget(commands, p.resetAttempted && !p.dropCompleted, r.drop);
    OptionalBudget(commands, 3 <= |main| && !keep, r.cleanup);
  }

  lemma GuardedBudget(commands: seq<Step>, safe: bool, calls: seq<Call>)
    requires NonNegative(commands)
    ensures SumBudget(commands, Guarded(safe, calls)) <= SumBudget(commands, calls)
  {
    BudgetNonNegative(commands, calls);
  }

  lemma WithinParts(commands: seq<Step>, p: Parts)
    requires WithinBounds(commands, p.All())
    ensures WithinBounds(commands, p.main) && WithinBounds(commands, p.recovery)
    ensures WithinBounds(commands, p.drop) && WithinBounds(commands, p.down)
  {
    var all := p.All();
    assert forall i :: 0 <= i < |p.main| ==> all[i] == p.main[i];
    assert forall i :: 0 <= i < |p.recovery| ==> all[|p.main| + i] == p.recovery[i];
    assert forall i :: 0 <= i < |p.drop| ==> all[|p.Upto2()| + i] == p.drop[i];
    assert forall i :: 0 <= i < |p.down| ==> all[|p.Upto3()| + i] == p.down[i];
  }

  lemma GuardedTime(commands: seq<Step>, block: Trace, safe: bool, calls: seq<Call>, env: Environment, base: nat)
    requires NonNegative(commands) && Runs(block, Guarded(safe, calls), env, base) && WithinBounds(commands, block)
    ensures TotalMs(block) <= SumBudget(commands, calls)
  {
    RunsWithinBudget(commands, block, Guarded(safe, calls), env, base);
    GuardedBudget(commands, safe, calls);
  }

  lemma TotalOfParts(p: Parts)
    ensures TotalMs(p.All()) == TotalMs(p.main) + TotalMs(p.recovery) + TotalMs(p.drop) + TotalMs(p.down)
  {
    TotalConcat(p.main, p.recovery);
    TotalConcat(p.Upto2(), p.drop);
    TotalConcat(p.Upto3(), p.down);
  }

  lemma MainTime(commands: seq<Step>, r: Roles, env: Environment, main: Trace)
    requires NonNegative(commands) && StandardRoles(r, |commands|)
    requires Runs(main, MainCalls(r, |commands|), env, 0) && WithinBounds(commands, main)
    ensures TotalMs(main) <= SumTimeouts(commands) - commands[|commands| - 1].timeoutMs + NGINX_PROBE_TIMEOUT_MS
  {
    RunsWithinBudget(commands, main, MainCalls(r, |commands|), env, 0);
    MainBudget(commands, r);
  }

  lemma UndoTime(commands: seq<Step>, r: Roles, n: nat, keep: bool, env: Environment, p: Parts)
    requires NonNegative(commands) && IsPlanRun(r, n, keep, env, p)
    requires WithinBounds(commands, p.recovery) && WithinBounds(commands, p.drop) && WithinBounds(commands, p.down)
    ensures TotalMs(p.recovery) <= RoleMs(commands, r.restart) + RoleMs(commands, r.recovered)
    ensures TotalMs(p.drop) <= RoleMs(commands, r.drop)
    ensures TotalMs(p.down) <= RoleMs(commands, r.cleanup)
  {
    var progress := ProgressOf(r, p.main);
    GuardedTime(commands, p.recovery, !Unsafe(p.main), RecoveryCalls(r, progress), env, |p.main|);
    GuardedTime(commands, p.drop, !Unsafe(p.Upto2()), DropCalls(r, progress), env, |p.Upto2()|);
    GuardedTime(commands, p.down, !Unsafe(p.Upto3()), DownCalls(r, keep, p.main), env, |p.Upto3()|);
    RecoveryBudget(commands, r, progress);
    UndoBudgets(commands, r, keep, progress, p.main);
  }

  /** Whatever passes or fails, a run takes at most the sum of all timeouts, one probe, and
      one more try of the recovery and of the drop. */
  lemma {:induction false} RunTimeBound(commands: seq<Step>, r: Roles, keep: bool, env: Environment, p: Parts)
    requires NonNegative(commands) && StandardRoles(r, |commands|)
    requires IsPlanRun(r, |commands|, keep, env, p) && WithinBounds(commands, p.All())
    ensures TotalMs(p.All()) <=
            SumTimeouts(commands) + NGINX_PROBE_TIMEOUT_MS
            + RoleMs(commands, r.restart) + RoleMs(commands, r.recovered) + RoleMs(commands, r.drop)
  {
    hide Runs, WithinBounds, TotalMs, SumTimeouts;
    WithinParts(commands, p);
    MainTime(commands, r, env, p.main);
    UndoTime(commands, r, |commands|, keep, env, p);
    TotalOfParts(p);
  }

  // ---------- the published bound ----------

  lemma {:induction false} SumTimeoutsConcat(a: seq<Step>, b: seq<Step>)
    ensures SumTimeouts(a + b) == SumTimeouts(a) + SumTimeouts(b)
  {
    if b == [] {
      assert a + b == a;
    } else {
      SumTimeoutsConcat(a, b[..|b| - 1]);
      assert (a + b)[..|a + b| - 1] == a + b[..|b| - 1];
    }
  }

  lemma {:induction false} RecoveryStepsCover(commands: seq<Step>, a: nat, b: nat)
    requires NonNegative(commands) && a < b < |commands|
    requires IsRecovery(commands[a]) && IsRecovery(commands[b])
    ensures commands[a].timeoutMs + commands[b].timeoutMs <= SumTimeouts(RecoverySteps(commands))
  {
    var front := commands[..|commands| - 1];
    if b < |commands| - 1 {
      RecoveryStepsCover(front, a, b);
      RecoverySnoc(commands);
    } else {
      RecoveryStepsCoverOne(front, a);
      RecoverySnoc(commands);
    }
  }

  lemma {:induction false} RecoveryStepsCoverOne(commands: seq<Step>, a: nat)
    requires NonNegative(commands) && a < |commands| && IsRecovery(commands[a])
    ensures commands[a].timeoutMs <= SumTimeouts(RecoverySteps(commands))
  {
    var front := commands[..|commands| - 1];
    RecoverySnoc(commands);
    if a < |commands| - 1 {
      RecoveryStepsCoverOne(front, a);
    } else {
      RecoveryNonNegative(front);
    }
  }

  lemma RecoverySnoc(commands: seq<Step>)
    requires commands != []
    ensures var last := commands[|commands| - 1];
            SumTimeouts(RecoverySteps(commands)) ==
            SumTimeouts(RecoverySteps(commands[..|commands| - 1])) + if IsRecovery(last) then last.timeoutMs else 0
  {
    var last := commands[|commands| - 1];
    SumTimeoutsConcat(RecoverySteps(commands[..|commands| - 1]), if IsRecovery(last) then [last] else []);
    assert [last][..0] == [];
  }

  lemma {:induction false} RecoveryNonNegative(commands: seq<Step>)
    requires NonNegative(commands)
    ensures 0 <= SumTimeouts(RecoverySteps(commands))
  {
    if commands != [] {
      RecoveryNonNegative(commands[..|commands| - 1]);
      RecoverySnoc(commands);
    }
  }

  lemma {:induction false} DependenciesNonNegative(ds: seq<Dependency>, wait: int)
    requires 1 <= wait
    ensures NonNegative(DependencyRecoveries(ds, wait))
  {
    if ds != [] {
      DependenciesNonNegative(ds[1..], wait);
    }
  }

  lemma BuiltTimeouts(wait: int, profile: TrustProfile)
    requires 1 <= wait
    ensures NonNegative(BuildSmokeCommands(wait, profile).value)
  {
    DependenciesNonNegative(REQUIRED_WORKER_DEPENDENCIES, wait);
    BuiltIsFrontAndBack(wait, profile);
    assert NonNegative(Front(wait));
    assert NonNegative(Back(profile));
  }

  lemma BuiltAt(wait: int, profile: TrustProfile, i: nat)
    requires 1 <= wait && i < |Back(profile)|
    ensures 39 + i < |BuildSmokeCommands(wait, profile).value|
    ensures BuildSmokeCommands(wait, profile).value[39 + i] == Back(profile)[i]
  {
    BuiltIsFrontAndBack(wait, profile);
  }

  lemma BuiltDrop(wait: int, profile: TrustProfile)
    requires 1 <= wait
    ensures RoleMs(BuildSmokeCommands(wait, profile).value, BuiltRoles(profile).drop) ==
            LIFECYCLE_DATABASE_COMMAND_TIMEOUT_MS
  {
    BuiltAt(wait, profile, FindingsCount(profile) + 4);
    assert Back(profile)[FindingsCount(profile) + 4] == LifecycleCommands()[4];
  }

  lemma BuiltRecovery(wait: int, profile: TrustProfile)
    requires 1 <= wait
    ensures var commands, r := BuildSmokeCommands(wait, profile).value, BuiltRoles(profile);
            RoleMs(commands, r.restart) + RoleMs(commands, r.recovered) <= SumTimeouts(RecoverySteps(commands))
  {
    var commands := BuildSmokeCommands(wait, profile).value;
    BuiltTimeouts(wait, profile);
    if profile.TrustedLocal? {
      BuiltAt(wait, profile, 2);
      BuiltAt(wait, profile, 3);
      assert Back(profile)[2] == FindingsCommands(profile)[2] && Back(profile)[3] == FindingsCommands(profile)[3];
      RecoveryStepsCover(commands, 41, 42);
    } else {
      RecoveryNonNegative(commands);
    }
  }

  /** For every wait timeout, both trust profiles and every pattern of successes and
      failures: when each step keeps its own bound, the whole run keeps the published one. */
  lemma PublishedBoundHolds(wait: int, profile: TrustProfile, keep: bool, env: Environment, p: Parts)
    requires 1 <= wait
    requires var commands := BuildSmokeCommands(wait, profile).value;
             IsPlanRun(RolesOf(commands), |commands|, keep, env, p) && WithinBounds(commands, p.All())
    ensures TotalMs(p.All()) <= SECOND_MS * WorstCaseSeconds(BuildSmokeCommands(wait, profile).value)
  {
    BuiltTimeouts(wait, profile);
    BuiltDrop(wait, profile);
    BuiltRecovery(wait, profile);
    RolesOfBuilt(wait, profile);
    RunTimeBound(BuildSmokeCommands(wait, profile).value, BuiltRoles(profile), keep, env, p);
  }
}
