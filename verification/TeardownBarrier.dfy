/** The teardown of a browser fixture: every run that could still write is seen in a terminal
    status before anything is deleted. */
module TeardownBarrier {
  import opened Options

  type RunId = string

  const TERMINAL_RUN_STATUSES: set<string> := {"COMPLETED", "FAILED", "CANCELLED", "TERMINATED", "TIMED_OUT"}

  const MAX_POLLS := 60

  const MAX_RUNS := 200

  predicate IsAlphanumeric(c: char) {
    'a' <= c <= 'z' || 'A' <= c <= 'Z' || '0' <= c <= '9'
  }

  predicate IsRunId(id: RunId) {
    && 1 <= |id| <= 256 && IsAlphanumeric(id[0])
    && forall c <- id :: IsAlphanumeric(c) || c in "._:-"
  }

  /** What the journey has recorded by the time of the teardown; an id that was never set is
      the empty string. */
  datatype Fixture = Fixture(
    scopeId: string,
    workflowId: string,
    seededRunIds: seq<RunId>,
    browserRunId: RunId,
    browserRunTerminal: bool,
    launchAttempted: bool,
    assetIds: seq<string>,
    findingIds: seq<string>
  )

  /** One run of the discovery response; its status need not be a string. */
  datatype Run = Run(workflowId: string, id: RunId, status: Option<string>)

  datatype Poll = PollFailed | Status(text: string)

  /** How the services answer: the discovery response, if it comes and has a list of runs;
      each cancellation; each status request; each deletion. */
  datatype Services = Services(
    discovery: Option<seq<Run>>,
    cancels: RunId -> bool,
    polls: (RunId, nat) -> Poll,
    deletes: Action -> bool
  )

  datatype Action =
    | Discover
    | Cancel(run: RunId)
    | Polled(run: RunId, status: string)
    | DeleteObservations
    | DeleteRows(runIds: seq<RunId>)
    | DeleteWorkflow
    | DeleteTarget

  predicate IsDelete(a: Action) {
    a.DeleteObservations? || a.DeleteRows? || a.DeleteWorkflow? || a.DeleteTarget?
  }

  predicate Distinct(ids: seq<RunId>) {
    forall i, j :: 0 <= i < j < |ids| ==> ids[i] != ids[j]
  }

  // ---------- discovery ----------

  predicate Discovers(f: Fixture) {
    f.scopeId != [] && f.workflowId != [] && f.launchAttempted
  }

  /** A run of the fixture's workflow that the seeding did not create. */
  predicate IsForeign(f: Fixture, run: Run) {
    f.workflowId == run.workflowId && run.id !in f.seededRunIds
  }

  /** The seeded runs and the one the browser is known to have started. */
  function Recorded(f: Fixture): seq<RunId> {
    if f.browserRunId != [] && f.browserRunId !in f.seededRunIds then
      f.seededRunIds + [f.browserRunId]
    else
      f.seededRunIds
  }

  predicate DiscoverySucceeds(f: Fixture, s: Services) {
    && s.discovery.Some? && |s.discovery.value| < MAX_RUNS
    && forall run <- s.discovery.value :: f.workflowId == run.workflowId ==> IsRunId(run.id)
  }

  /** The status a list of runs reports last for a run. */
  function ReportedStatus(f: Fixture, runs: seq<Run>, id: RunId): Option<string> {
    if runs == [] then None
    else
      var run := runs[|runs| - 1];
      if IsForeign(f, run) && run.id == id then run.status else ReportedStatus(f, runs[..|runs| - 1], id)
  }

  ghost predicate AddsForeign(f: Fixture, runs: seq<Run>, ids: seq<RunId>) {
    && Recorded(f) <= ids
    && (Distinct(f.seededRunIds) ==> Distinct(ids))
    && forall id :: id in ids <==> id in Recorded(f) || exists run <- runs :: IsForeign(f, run) && run.id == id
  }

  method AddUnique(ids: seq<RunId>, id: RunId) returns (longer: seq<RunId>)
    ensures ids <= longer && (Distinct(ids) ==> Distinct(longer))
    ensures forall other :: other in longer <==> other in ids || (other == id && id != [])
  {
    longer := if id != [] && id !in ids then ids + [id] else ids;
  }

  /** Adds every run of the workflow to the recorded ones, up to the first malformed id. */
  method DiscoverRuns(f: Fixture, runs: seq<Run>)
    returns (ok: bool, ids: seq<RunId>, statuses: map<RunId, string>)
    ensures ok <==> forall run <- runs :: f.workflowId == run.workflowId ==> IsRunId(run.id)
    ensures Recorded(f) <= ids && (Distinct(f.seededRunIds) ==> Distinct(ids))
    ensures ok ==> AddsForeign(f, runs, ids)
    ensures ok ==> forall id :: ReportedStatus(f, runs, id) == if id in statuses then Some(statuses[id]) else None
  {
    ids, statuses := Recorded(f), map[];
    var k := 0;
    while k < |runs|
      invariant k <= |runs| && AddsForeign(f, runs[..k], ids)
      invariant forall run <- runs[..k] :: f.workflowId == run.workflowId ==> IsRunId(run.id)
      invariant forall id ::
        ReportedStatus(f, runs[..k], id) == if id in statuses then Some(statuses[id]) else None
    {
      var run := runs[k];
      assert runs[..k + 1] == runs[..k] + [run];
      assert run in runs;
      if f.workflowId == run.workflowId {
        if !IsRunId(run.id) { return false, ids, statuses; }
        if run.id !in f.seededRunIds {
          ids := AddUnique(ids, run.id);
          statuses := if run.status.Some? then statuses[run.id := run.status.value] else statuses - {run.id};
        }
      }
      k := k + 1;
    }
    assert runs[..k] == runs;
    return true, ids, statuses;
  }

  // ---------- the terminal barrier ----------

  predicate IsTerminal(status: string) {
    status in TERMINAL_RUN_STATUSES
  }

  /** The n-th status request of a run is the first to report a terminal status. */
  predicate TerminalAt(s: Services, run: RunId, n: nat) {
    && s.polls(run, n).Status? && IsTerminal(s.polls(run, n).text)
    && forall m :: 0 <= m < n ==> s.polls(run, m).Status? && !IsTerminal(s.polls(run, m).text)
  }

  ghost predicate ReachesTerminal(s: Services, run: RunId) {
    exists n: nat :: n < MAX_POLLS && TerminalAt(s, run, n)
  }

  predicate SeenTerminal(log: seq<Action>, run: RunId) {
    exists a <- log :: a.Polled? && a.run == run && IsTerminal(a.status)
  }

  method WaitForTerminalRun(s: Services, run: RunId) returns (ok: bool, log: seq<Action>)
    ensures ok <==> ReachesTerminal(s, run)
    ensures ok ==> SeenTerminal(log, run)
    ensures forall a <- log :: a.Polled? && a.run == run
  {
    log := [];
    var n: nat := 0;
    while n < MAX_POLLS
      invariant n <= MAX_POLLS && forall a <- log :: a.Polled? && a.run == run
      invariant forall m :: 0 <= m < n ==> s.polls(run, m).Status? && !IsTerminal(s.polls(run, m).text)
    {
      match s.polls(run, n) {
        case PollFailed =>
          return false, log;
        case Status(status) =>
          log := log + [Polled(run, status)];
          if IsTerminal(status) {
            assert TerminalAt(s, run, n);
            assert log[|log| - 1] == Polled(run, status);
            return true, log;
          }
      }
      n := n + 1;
    }
    return false, log;
  }

  predicate KnownTerminal(f: Fixture, statuses: map<RunId, string>, run: RunId) {
    (run == f.browserRunId && f.browserRunTerminal) || (run in statuses && IsTerminal(statuses[run]))
  }

  ghost predicate Quiesces(f: Fixture, s: Services, statuses: map<RunId, string>, run: RunId) {
    KnownTerminal(f, statuses, run) || (s.cancels(run) && ReachesTerminal(s, run))
  }

  predicate ProvedTerminal(f: Fixture, statuses: map<RunId, string>, log: seq<Action>, run: RunId) {
    KnownTerminal(f, statuses, run) || SeenTerminal(log, run)
  }

  /** Every run of the list that was not seeded is brought to a terminal status, whether or
      not that worked for the others. */
  method CancelUnfinished(f: Fixture, s: Services, ids: seq<RunId>, statuses: map<RunId, string>)
    returns (passed: bool, log: seq<Action>)
    ensures passed <==> forall run <- ids :: run !in f.seededRunIds ==> Quiesces(f, s, statuses, run)
    ensures passed ==> forall run <- ids :: run !in f.seededRunIds ==> ProvedTerminal(f, statuses, log, run)
    ensures forall a <- log :: !IsDelete(a)
    ensures forall run :: Cancel(run) in log <==>
              run in ids && run !in f.seededRunIds && !KnownTerminal(f, statuses, run)
  {
    passed, log := true, [];
    for k := 0 to |ids|
      invariant passed <==> forall run <- ids[..k] :: run !in f.seededRunIds ==> Quiesces(f, s, statuses, run)
      invariant passed ==>
                  forall run <- ids[..k] :: run !in f.seededRunIds ==> ProvedTerminal(f, statuses, log, run)
      invariant forall a <- log :: !IsDelete(a)
      invariant forall run :: Cancel(run) in log <==>
                  run in ids[..k] && run !in f.seededRunIds && !KnownTerminal(f, statuses, run)
    {
      var run := ids[k];
      assert ids[..k + 1] == ids[..k] + [run];
      ghost var earlier := log;
      if run !in f.seededRunIds && !KnownTerminal(f, statuses, run) {
        log := log + [Cancel(run)];
        var reached := false;
        if s.cancels(run) {
          var polls;
          reached, polls := WaitForTerminalRun(s, run);
          log := log + polls;
        }
        passed := passed && reached;
      }
      LongerLogProves(f, statuses, earlier, log);
    }
    assert ids[..|ids|] == ids;
  }

  lemma LongerLogProves(f: Fixture, statuses: map<RunId, string>, log: seq<Action>, longer: seq<Action>)
    requires forall a <- log :: a in longer
    ensures forall run :: ProvedTerminal(f, statuses, log, run) ==> ProvedTerminal(f, statuses, longer, run)
  {
  }

  // ---------- the whole teardown ----------

  /** The deletions, in order, once the barrier has passed. */
  function Deletions(f: Fixture, ids: seq<RunId>): seq<Action> {
    If(f.scopeId != [] && (f.launchAttempted || f.browserRunId != []), DeleteObservations)
    + If(ids != [] || f.assetIds != [] || f.findingIds != [], DeleteRows(ids))
    + If(f.workflowId != [], DeleteWorkflow)
    + If(f.scopeId != [], DeleteTarget)
  }

  function If(wanted: bool, a: Action): seq<Action> {
    if wanted then [a] else []
  }

  /** Findings observations, then rows, then the workflow, then the target. */
  function Rank(a: Action): int {
    match a
    case DeleteObservations => 1
    case DeleteRows(_) => 2
    case DeleteWorkflow => 3
    case DeleteTarget => 4
    case _ => 0
  }

  /** Whether there is something for a deletion to delete; the rows are those of exactly the
      accounted runs. */
  predicate HasWork(f: Fixture, ids: seq<RunId>, a: Action) {
    match a
    case DeleteObservations => f.scopeId != [] && (f.launchAttempted || f.browserRunId != [])
    case DeleteRows(runIds) => runIds == ids && !(ids == [] && f.assetIds == [] && f.findingIds == [])
    case DeleteWorkflow => f.workflowId != []
    case DeleteTarget => f.scopeId != []
    case _ => false
  }

  predicate RanksAscend(log: seq<Action>) {
    forall i, j :: 0 <= i < j < |log| ==> Rank(log[i]) < Rank(log[j])
  }

  lemma Appended(log: seq<Action>, wanted: bool, a: Action)
    requires RanksAscend(log) && forall b <- log :: Rank(b) < Rank(a)
    ensures RanksAscend(log + If(wanted, a)) && forall b <- log + If(wanted, a) :: Rank(b) <= Rank(a)
  {
  }

  lemma DeletionsAscend(f: Fixture, ids: seq<RunId>)
    ensures RanksAscend(Deletions(f, ids))
  {
    var observations := f.scopeId != [] && (f.launchAttempted || f.browserRunId != []);
    var rows := ids != [] || f.assetIds != [] || f.findingIds != [];
    var first := If(observations, DeleteObservations);
    Appended(first, rows, DeleteRows(ids));
    var second := first + If(rows, DeleteRows(ids));
    Appended(second, f.workflowId != [], DeleteWorkflow);
    Appended(second + If(f.workflowId != [], DeleteWorkflow), f.scopeId != [], DeleteTarget);
  }

  lemma InSum(a: Action, log: seq<Action>, wanted: bool, b: Action)
    ensures a in log + If(wanted, b) <==> a in log || (wanted && a == b)
  {
  }

  lemma DeletionIff(f: Fixture, ids: seq<RunId>, a: Action)
    ensures a in Deletions(f, ids) <==> HasWork(f, ids, a)
  {
    var observations := f.scopeId != [] && (f.launchAttempted || f.browserRunId != []);
    var rows := ids != [] || f.assetIds != [] || f.findingIds != [];
    var first := If(observations, DeleteObservations);
    var second := first + If(rows, DeleteRows(ids));
    var third := second + If(f.workflowId != [], DeleteWorkflow);
    hide If;
    InSum(a, [], observations, DeleteObservations);
    assert [] + first == first;
    InSum(a, first, rows, DeleteRows(ids));
    InSum(a, second, f.workflowId != [], DeleteWorkflow);
    InSum(a, third, f.scopeId != [], DeleteTarget);
  }

  /** The deletions are exactly those that have work, each once and in rank order. */
  lemma DeletionsAreThese(f: Fixture, ids: seq<RunId>)
    ensures forall a :: a in Deletions(f, ids) <==> HasWork(f, ids, a)
    ensures RanksAscend(Deletions(f, ids))
  {
    hide Deletions, HasWork;
    DeletionsAscend(f, ids);
    forall a {
      DeletionIff(f, ids, a);
    }
  }

  /** Each deletion is attempted, whether or not an earlier one failed. */
  method Delete(s: Services, deletions: seq<Action>) returns (ok: bool, log: seq<Action>)
    ensures log == deletions
    ensures ok <==> forall a <- deletions :: s.deletes(a)
  {
    ok, log := true, [];
    for k := 0 to |deletions|
      invariant log == deletions[..k]
      invariant ok <==> forall a <- deletions[..k] :: s.deletes(a)
    {
      assert deletions[..k + 1] == deletions[..k] + [deletions[k]];
      log := log + [deletions[k]];
      ok := ok && s.deletes(deletions[k]);
    }
    assert deletions[..|deletions|] == deletions;
  }

  /** What the discovery leaves behind: the runs to account for and their reported statuses. */
  method Discovery(f: Fixture, s: Services)
    returns (ok: bool, ids: seq<RunId>, statuses: map<RunId, string>, log: seq<Action>)
    ensures ok <==> (Discovers(f) ==> DiscoverySucceeds(f, s))
    ensures log == if Discovers(f) then [Discover] else []
    ensures Recorded(f) <= ids && (Distinct(f.seededRunIds) ==> Distinct(ids))
    ensures ok ==> Accounts(f, s, ids, statuses)
  {
    ids, statuses := Recorded(f), map[];
    if !Discovers(f) { return true, ids, statuses, []; }
    log := [Discover];
    if s.discovery == None || |s.discovery.value| >= MAX_RUNS { return false, ids, statuses, log; }
    ok, ids, statuses := DiscoverRuns(f, s.discovery.value);
  }

  /** The runs are the recorded ones and those the discovery found, each with the status the
      discovery reported for it. */
  ghost predicate Accounts(f: Fixture, s: Services, ids: seq<RunId>, statuses: map<RunId, string>) {
    var runs := if Discovers(f) && s.discovery.Some? then s.discovery.value else [];
    && AddsForeign(f, runs, ids)
    && forall id :: ReportedStatus(f, runs, id) == if id in statuses then Some(statuses[id]) else None
  }

  datatype Teardown = Teardown(done: bool, log: seq<Action>, runIds: seq<RunId>, statuses: map<RunId, string>)

  /** Everything the teardown does before its first deletion. */
  ghost predicate BarrierPasses(f: Fixture, s: Services, ids: seq<RunId>, statuses: map<RunId, string>) {
    && (Discovers(f) ==> DiscoverySucceeds(f, s))
    && forall run <- ids :: run !in f.seededRunIds ==> Quiesces(f, s, statuses, run)
  }

  /** The discovery lists a run of the fixture's workflow under this id. */
  predicate Lists(f: Fixture, s: Services, id: RunId) {
    && f.scopeId != [] && f.workflowId != [] && f.launchAttempted && s.discovery.Some?
    && exists run <- s.discovery.value :: run.workflowId == f.workflowId && run.id == id
  }

  /** The runs are the seeded ones, the one the browser started, and those the discovery lists. */
  ghost predicate RunsAccounted(f: Fixture, s: Services, ids: seq<RunId>) {
    forall id :: id in ids <==>
      id in f.seededRunIds || (id == f.browserRunId && id != []) || Lists(f, s, id)
  }

  /** The journey saw the run end, or the discovery reported it last in a terminal status. */
  predicate EndedBefore(f: Fixture, statuses: map<RunId, string>, run: RunId) {
    || (f.browserRunTerminal && f.browserRunId == run)
    || (run in statuses && statuses[run] in TERMINAL_RUN_STATUSES)
  }

  lemma AccountsForRuns(f: Fixture, s: Services, ids: seq<RunId>, statuses: map<RunId, string>)
    requires Accounts(f, s, ids, statuses)
    ensures RunsAccounted(f, s, ids)
  {
    var runs := if Discovers(f) && s.discovery.Some? then s.discovery.value else [];
    forall id: RunId
      ensures id in ids <==> id in f.seededRunIds || (id == f.browserRunId && id != []) || Lists(f, s, id)
    {
      assert id in Recorded(f) <==> id in f.seededRunIds || (id == f.browserRunId && id != []);
      if Lists(f, s, id) && id !in f.seededRunIds {
        var run :| run in s.discovery.value && run.workflowId == f.workflowId && run.id == id;
        assert run in runs && IsForeign(f, run);
      }
    }
  }

  /** Exactly the runs that were not seeded and have not ended are cancelled. */
  ghost predicate CancelsThese(f: Fixture, ids: seq<RunId>, statuses: map<RunId, string>, log: seq<Action>) {
    forall run :: Cancel(run) in log <==> run in ids && run !in f.seededRunIds && !EndedBefore(f, statuses, run)
  }

  /** Every run that could still write was seen to have ended. */
  ghost predicate AllEnded(f: Fixture, ids: seq<RunId>, statuses: map<RunId, string>, log: seq<Action>) {
    forall run <- ids :: run !in f.seededRunIds ==> EndedBefore(f, statuses, run) || SeenTerminal(log, run)
  }

  /** Everything before the first deletion. */
  method Barrier(f: Fixture, s: Services)
    returns (passed: bool, ids: seq<RunId>, statuses: map<RunId, string>, log: seq<Action>)
    ensures passed <==> BarrierPasses(f, s, ids, statuses)
    ensures passed ==> Accounts(f, s, ids, statuses) && IsBarrierLog(f, ids, statuses, log)
    ensures (forall a <- log :: !IsDelete(a)) && CancelsThese(f, ids, statuses, log)
    ensures Recorded(f) <= ids && (Distinct(f.seededRunIds) ==> Distinct(ids))
  {
    hide Accounts, Distinct, Recorded, Quiesces;
    var found, quiet, cancels;
    found, ids, statuses, log := Discovery(f, s);
    quiet, cancels := CancelUnfinished(f, s, ids, statuses);
    LongerLogProves(f, statuses, cancels, log + cancels);
    log := log + cancels;
    passed := found && quiet;
  }

  lemma DeletionsAdd(f: Fixture, ids: seq<RunId>, statuses: map<RunId, string>, log: seq<Action>)
    requires CancelsThese(f, ids, statuses, log)
    ensures CancelsThese(f, ids, statuses, log + Deletions(f, ids))
    ensures IsBarrierLog(f, ids, statuses, log) ==> AllEnded(f, ids, statuses, log + Deletions(f, ids))
  {
    DeletionsAreThese(f, ids);
    hide Deletions;
    assert forall run :: Cancel(run) !in Deletions(f, ids);
  }

  /** Deletions happen exactly when the barrier passes; then all of them are attempted, after
      every run that was not seeded was seen in a terminal status. */
  method Cleanup(f: Fixture, s: Services) returns (t: Teardown)
    ensures t.done ==> BarrierPasses(f, s, t.runIds, t.statuses)
    ensures BarrierPasses(f, s, t.runIds, t.statuses) ==>
              && Accounts(f, s, t.runIds, t.statuses) && RunsAccounted(f, s, t.runIds)
              && AllEnded(f, t.runIds, t.statuses, t.log)
              && (t.done <==> forall a <- Deletions(f, t.runIds) :: s.deletes(a))
              && exists before :: IsBarrierLog(f, t.runIds, t.statuses, before)
                                  && t.log == before + Deletions(f, t.runIds)
    ensures !BarrierPasses(f, s, t.runIds, t.statuses) ==> forall a <- t.log :: !IsDelete(a)
    ensures CancelsThese(f, t.runIds, t.statuses, t.log)
    ensures Recorded(f) <= t.runIds && (Distinct(f.seededRunIds) ==> Distinct(t.runIds))
  {
    hide Accounts, BarrierPasses, IsBarrierLog, CancelsThese, AllEnded, RunsAccounted, Recorded, Distinct, Deletions;
    var passed, ids, statuses, log := Barrier(f, s);
    if !passed { return Teardown(false, log, ids, statuses); }
    AccountsForRuns(f, s, ids, statuses);
    DeletionsAdd(f, ids, statuses, log);
    var ok, deletes := Delete(s, Deletions(f, ids));
    return Teardown(ok, log + deletes, ids, statuses);
  }

  ghost predicate IsBarrierLog(f: Fixture, ids: seq<RunId>, statuses: map<RunId, string>, log: seq<Action>) {
    && (forall a <- log :: !IsDelete(a))
    && forall run <- ids :: run !in f.seededRunIds ==> ProvedTerminal(f, statuses, log, run)
  }
}
