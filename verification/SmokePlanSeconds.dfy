/** The published worst-case time of the smoke plan, in seconds. */
module SmokePlanSeconds {
  import opened Numbers
  import opened SmokePlan
  import opened SmokePlanTheorems

  /** The timeouts of the steps that may be run once more. */
  function RetryMs(commands: seq<Step>): int { SumTimeouts(RecoverySteps(commands)) }

  lemma {:induction false} RetryConcat(a: seq<Step>, b: seq<Step>)
    ensures RetryMs(a + b) == RetryMs(a) + RetryMs(b)
  {
    if b == [] {
      assert a + b == a;
    } else {
      var front := b[..|b| - 1];
      assert (a + b)[..|a + b| - 1] == a + front;
      RetryConcat(a, front);
      RecoverySnoc(a + b);
      RecoverySnoc(b);
    }
  }

  lemma {:induction false} NoRetries(commands: seq<Step>)
    requires forall step <- commands :: !IsRecovery(step)
    ensures RetryMs(commands) == 0
  {
    if commands != [] {
      NoRetries(commands[..|commands| - 1]);
      RecoverySnoc(commands);
    }
  }

  /** The sums of one step and the rest. */
  lemma SumsFrom(commands: seq<Step>, i: nat)
    requires i < |commands|
    ensures SumTimeouts(commands[i..]) == commands[i].timeoutMs + SumTimeouts(commands[i + 1..])
    ensures RetryMs(commands[i..]) ==
            (if IsRecovery(commands[i]) then commands[i].timeoutMs else 0) + RetryMs(commands[i + 1..])
  {
    var first := [commands[i]];
    assert commands[i..] == first + commands[i + 1..];
    SumTimeoutsConcat(first, commands[i + 1..]);
    RetryConcat(first, commands[i + 1..]);
    assert first[..0] == [];
    RecoverySnoc(first);
  }

  function MsAt(commands: seq<Step>, i: nat): int {
    if i < |commands| then commands[i].timeoutMs else 0
  }

  /** The sum of a list of up to nine steps, spelled out. */
  lemma ShortSum(commands: seq<Step>)
    requires |commands| <= 9
    ensures SumTimeouts(commands) ==
            MsAt(commands, 0) + MsAt(commands, 1) + MsAt(commands, 2) + MsAt(commands, 3) + MsAt(commands, 4)
            + MsAt(commands, 5) + MsAt(commands, 6) + MsAt(commands, 7) + MsAt(commands, 8)
  {
    hide SumTimeouts;
    SumStep(commands, 0);
    SumStep(commands, 1);
    SumStep(commands, 2);
    SumStep(commands, 3);
    SumStep(commands, 4);
    SumStep(commands, 5);
    SumStep(commands, 6);
    SumStep(commands, 7);
    SumStep(commands, 8);
    SumEnd(commands, 9);
    assert Drop(commands, 0) == commands;
  }

  function Drop(commands: seq<Step>, i: nat): seq<Step> {
    if i <= |commands| then commands[i..] else []
  }

  lemma SumStep(commands: seq<Step>, i: nat)
    ensures SumTimeouts(Drop(commands, i)) == MsAt(commands, i) + SumTimeouts(Drop(commands, i + 1))
  {
    if i < |commands| {
      SumsFrom(commands, i);
    }
  }

  lemma SumEnd(commands: seq<Step>, i: nat)
    requires |commands| <= i
    ensures SumTimeouts(Drop(commands, i)) == 0
  {
  }

  lemma {:induction false} DependencySums(ds: seq<Dependency>, wait: int)
    ensures SumTimeouts(DependencyRecoveries(ds, wait)) == |ds| * ((210 + Min(wait, 120)) * SECOND_MS)
    ensures RetryMs(DependencyRecoveries(ds, wait)) == 0
  {
    if ds != [] {
      OneDependency(ds[0], wait);
      DependencySums(ds[1..], wait);
      hide SumTimeouts, RetryMs;
      SumsConcat(DependencyRecovery(ds[0], wait), DependencyRecoveries(ds[1..], wait));
      TimesOneMore(|ds|, (210 + Min(wait, 120)) * SECOND_MS);
    }
  }

  lemma TimesOneMore(n: nat, x: int)
    requires 1 <= n
    ensures n * x == x + (n - 1) * x
  {
  }

  lemma OneDependency(d: Dependency, wait: int)
    ensures SumTimeouts(DependencyRecovery(d, wait)) == (210 + Min(wait, 120)) * SECOND_MS
    ensures RetryMs(DependencyRecovery(d, wait)) == 0
  {
    ShortSum(DependencyRecovery(d, wait));
    NoRetries(DependencyRecovery(d, wait));
  }

  lemma BringUpSums(wait: int)
    ensures SumTimeouts(BringUpCommands(wait)) == (360 + 2 * wait) * SECOND_MS && RetryMs(BringUpCommands(wait)) == 0
  {
    ShortSum(BringUpCommands(wait));
    NoRetries(BringUpCommands(wait));
  }

  lemma PostFaultSums()
    ensures SumTimeouts(PostFaultCommands()) == 135 * SECOND_MS && RetryMs(PostFaultCommands()) == 0
  {
    ShortSum(PostFaultCommands());
    NoRetries(PostFaultCommands());
  }

  lemma FrontSums(wait: int)
    ensures SumTimeouts(Front(wait)) == (1_965 + 2 * wait + 7 * Min(wait, 120)) * SECOND_MS
    ensures RetryMs(Front(wait)) == 0
  {
    hide SumTimeouts, RetryMs, BringUpCommands, DependencyRecoveries, PostFaultCommands;
    var up, post := BringUpCommands(wait), PostFaultCommands();
    var deps := DependencyRecoveries(REQUIRED_WORKER_DEPENDENCIES, wait);
    BringUpSums(wait);
    DependencySums(REQUIRED_WORKER_DEPENDENCIES, wait);
    PostFaultSums();
    SumsConcat(up, deps);
    SumsConcat(up + deps, post);
  }

  lemma SumsConcat(a: seq<Step>, b: seq<Step>)
    ensures SumTimeouts(a + b) == SumTimeouts(a) + SumTimeouts(b)
    ensures RetryMs(a + b) == RetryMs(a) + RetryMs(b)
  {
    SumTimeoutsConcat(a, b);
    RetryConcat(a, b);
  }

  function FindingsSeconds(profile: TrustProfile): int { if profile.TrustedLocal? then 1_845 else 0 }

  function RetrySeconds(profile: TrustProfile): int { if profile.TrustedLocal? then 255 else 0 }

  lemma FindingsSums(profile: TrustProfile)
    ensures SumTimeouts(FindingsCommands(profile)) == FindingsSeconds(profile) * SECOND_MS
    ensures RetryMs(FindingsCommands(profile)) == RetrySeconds(profile) * SECOND_MS
  {
    ShortSum(FindingsCommands(profile));
    if profile.TrustedLocal? {
      FindingsRetries();
    }
  }

  lemma FindingsRetries()
    ensures RetryMs(FindingsCommands(TrustedLocal)) == 255 * SECOND_MS
  {
    hide SumTimeouts, RecoverySteps, RetryMs;
    var c := FindingsCommands(TrustedLocal);
    var first, restart, recovered, last := c[..2], c[2..3], c[3..4], c[4..];
    NoRetries(first);
    OneRetry(restart);
    OneRetry(recovered);
    NoRetries(last);
    RetryConcat(first, restart);
    RetryConcat(first + restart, recovered);
    RetryConcat(first + restart + recovered, last);
    assert c == first + restart + recovered + last;
  }

  lemma OneRetry(c: seq<Step>)
    requires |c| == 1 && IsRecovery(c[0])
    ensures RetryMs(c) == c[0].timeoutMs
  {
    RecoverySnoc(c);
    assert c[..0] == [];
  }

  lemma LifecycleSums()
    ensures SumTimeouts(LifecycleCommands()) == 960 * SECOND_MS && RetryMs(LifecycleCommands()) == 0
  {
    ShortSum(LifecycleCommands());
    NoRetries(LifecycleCommands());
  }

  function JourneySeconds(profile: TrustProfile): int { if profile.TrustedLocal? then 3_900 else 1_380 }

  lemma JourneySums(profile: TrustProfile)
    ensures SumTimeouts(JourneyCommands(profile)) == JourneySeconds(profile) * SECOND_MS
    ensures RetryMs(JourneyCommands(profile)) == 0
  {
    ShortSum(JourneyCommands(profile));
    NoRetries(JourneyCommands(profile));
  }

  lemma BuiltSums(wait: int, profile: TrustProfile)
    requires 1 <= wait
    ensures var commands := BuildSmokeCommands(wait, profile).value;
            && SumTimeouts(commands) ==
               (2_925 + 2 * wait + 7 * Min(wait, 120) + FindingsSeconds(profile) + JourneySeconds(profile)) * SECOND_MS
            && RetryMs(commands) == RetrySeconds(profile) * SECOND_MS
  {
    hide SumTimeouts, RetryMs, Front, FindingsCommands, LifecycleCommands, JourneyCommands;
    var f, l, j := FindingsCommands(profile), LifecycleCommands(), JourneyCommands(profile);
    BuiltIsFrontAndBack(wait, profile);
    FrontSums(wait);
    FindingsSums(profile);
    LifecycleSums();
    JourneySums(profile);
    SumsConcat(l, j);
    SumsConcat(f, l + j);
    SumsConcat(Front(wait), f + (l + j));
  }

  /** The published seconds for every wait timeout and both profiles; for the default wait
      timeout of 300 seconds they are 10420 and 5800. */
  lemma PublishedSeconds(wait: int, profile: TrustProfile)
    requires 1 <= wait
    ensures WorstCaseSeconds(BuildSmokeCommands(wait, profile).value) ==
            2 * wait + 7 * Min(wait, 120) + if profile.TrustedLocal? then 8_980 else 4_360
    ensures wait == 300 ==>
              WorstCaseSeconds(BuildSmokeCommands(wait, profile).value) ==
              if profile.TrustedLocal? then 10_420 else 5_800
  {
    BuiltSums(wait, profile);
  }
}
