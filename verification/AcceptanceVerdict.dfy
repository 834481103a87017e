/** What the acceptance plan reports, told from the events of its run alone. */
module AcceptanceVerdict {
  import opened Options
  import opened AcceptanceDeadlines
  import opened AcceptanceTheorems

  /** How the promise of the plan settles. */
  datatype Report = Resolves | Rejects(error: Failure) | RejectsWithBoth(work: Failure, cleanup: Failure)

  function ReportOf(s: State): Report
    requires s.stage.Settled?
  {
    if s.primary.Some? && s.cleanupFailure.Some? then
      RejectsWithBoth(s.primary.value, s.cleanupFailure.value)
    else if s.primary.Some? then Rejects(s.primary.value)
    else if s.cleanupFailure.Some? then Rejects(s.cleanupFailure.value)
    else Resolves
  }

  /** The events that are not moves of the clock. */
  function Happenings(es: seq<Event>): seq<Event> {
    if es == [] then []
    else Happenings(es[..|es| - 1]) + if es[|es| - 1].Advance? then [] else [es[|es| - 1]]
  }

  /** n phases fulfil, one after the other. */
  function Fulfilments(n: nat): seq<Event> {
    seq(n, _ => PhaseSettles(Fulfilled))
  }

  predicate Stopped(es: seq<Event>) {
    exists e <- es :: e.Fire?
  }

  /** The deadline of the work, or that of the plan, has passed. */
  predicate WorkStopped(es: seq<Event>) {
    Fire(WorkTimer) in es || Fire(TotalTimer) in es
  }

  predicate CleanupStopped(es: seq<Event>) {
    Fire(CleanupTimer) in es || Fire(TotalTimer) in es
  }

  /** A deadline takes a timeout and a drain window of at least one millisecond. */
  predicate Accepted(timeout: int, drain: int) {
    1 <= timeout && 1 <= drain
  }

  predicate TimeoutsValid(c: Timeouts) {
    && Accepted(c.work, c.workDrain) && Accepted(c.cleanup, c.cleanupDrain)
    && forall i :: 0 <= i < |c.phases| ==> 1 <= c.phases[i]
  }

  ghost predicate WorkEndsAt(c: Timeouts, es: seq<Event>, i: nat) {
    && i < |es|
    && Before(c, es, i).Some? && Before(c, es, i).value.stage.Working?
    && Before(c, es, i + 1).Some? && !Before(c, es, i + 1).value.stage.Working?
  }

  ghost predicate CleanupEndsAt(c: Timeouts, es: seq<Event>, j: nat) {
    && j < |es|
    && Before(c, es, j).Some? && Before(c, es, j).value.stage.CleaningUp?
    && Before(c, es, j + 1).Some? && !Before(c, es, j + 1).value.stage.CleaningUp?
  }

  /** The error of the work that event i ends: the first thing that went wrong. */
  function WorkError(c: Timeouts, es: seq<Event>, i: nat): Option<Failure>
    requires i < |es|
  {
    match es[i]
    case PhaseSettles(outcome) =>
      if Stopped(es[..i]) then Some(DeadlineFailure)
      else if outcome == Rejected(true) then Some(DrainFailure)
      else if outcome == Rejected(false) then Some(OperationFailure)
      else if |Happenings(es[..i])| + 1 == |c.phases| then None
      else Some(InvalidTimeout)
    case Fire(PhaseDrainTimer) =>
      if WorkStopped(es[..i]) then Some(DeadlineFailure) else Some(DrainFailure)
    case _ => Some(DrainFailure)
  }

  function CleanupError(es: seq<Event>, j: nat): Option<Failure>
    requires j < |es|
  {
    match es[j]
    case CleanupSettles(outcome) =>
      if CleanupStopped(es[..j]) then Some(DeadlineFailure)
      else if outcome == Rejected(true) then Some(DrainFailure)
      else if outcome == Rejected(false) then Some(OperationFailure)
      else None
    case _ => Some(DrainFailure)
  }

  // ---------- what a state knows of the run behind it ----------

  predicate AtWork(c: Timeouts, s: State, es: seq<Event>)
    requires s.stage.Working?
  {
    && c.WorkValid() && PhasesValid(c, s.stage.phase + 1)
    && s.primary == None && s.cleanupFailure == None && s.cleanupCall == NotCalled && s.phaseActive
    && s.timers.pending.Keys <= WORK_TIMERS
    && (WorkDrainTimer in s.timers.pending ==> s.stage.outer.Draining?)
    && (PhaseDrainTimer in s.timers.pending ==> s.stage.inner.Draining?)
    && (s.stage.outer.Draining? <==> WorkStopped(es))
    && (s.stage.inner.Draining? <==> Stopped(es))
    && (!Stopped(es) ==> Happenings(es) == Fulfilments(s.stage.phase))
    && (s.stage.outer == Draining(true) ==> Fire(WorkTimer) in es)
    && (s.stage.outer == Draining(false) ==> Fire(TotalTimer) in es)
    && (s.stage.inner == Draining(true) ==> Fire(PhaseTimer) in es)
    && (s.stage.inner == Draining(false) ==> WorkStopped(es))
    && Fire(CleanupTimer) !in es
  }

  predicate AtCleanup(c: Timeouts, s: State, es: seq<Event>)
    requires s.stage.CleaningUp?
  {
    && c.CleanupValid()
    && s.primary != Some(DrainFailure) && s.cleanupFailure == None && s.cleanupCall.Called?
    && (s.stage.race.Draining? <==> CleanupStopped(es))
    && (s.stage.race == Draining(true) ==> Fire(CleanupTimer) in es)
    && (s.stage.race == Draining(false) ==> Fire(TotalTimer) in es)
    && (s.primary == None && s.stage.race.Racing? ==>
          && c.WorkValid() && PhasesValid(c, |c.phases|)
          && !s.phaseActive && s.timers.pending.Keys <= {TotalTimer, CleanupTimer}
          && Happenings(es) == Fulfilments(|c.phases|))
  }

  /** The cleanup was called unless the work reported a drain failure or its timeouts are
      rejected. */
  predicate AtEnd(c: Timeouts, s: State, es: seq<Event>) {
    && (s.cleanupCall.Called? <==> s.primary != Some(DrainFailure) && Accepted(c.cleanup, c.cleanupDrain))
    && (s.cleanupCall == NotCalled ==>
          s.cleanupFailure == Some(if s.primary == Some(DrainFailure) then CleanupSuppressed else InvalidTimeout))
    && (s.primary == None && s.cleanupFailure == None ==>
          TimeoutsValid(c) && Happenings(es) == Fulfilments(|c.phases|) + [CleanupSettles(Fulfilled)])
  }

  predicate Knows(c: Timeouts, s: State, es: seq<Event>) {
    && (!s.stage.Settled? ==> (s.totalAborted <==> Fire(TotalTimer) in es))
    && match s.stage
       case Working(_, _, _) => AtWork(c, s, es)
       case CleaningUp(_) => AtCleanup(c, s, es)
       case Settled => AtEnd(c, s, es)
  }

  lemma AfterWorkKnows(c: Timeouts, s: State, es: seq<Event>)
    requires s.cleanupFailure == None && s.cleanupCall == NotCalled
    requires s.totalAborted <==> Fire(TotalTimer) in es
    requires Fire(CleanupTimer) !in es
    requires s.primary == None ==>
               && c.WorkValid() && PhasesValid(c, |c.phases|)
               && !s.phaseActive && s.timers.pending.Keys <= {TotalTimer}
               && Happenings(es) == Fulfilments(|c.phases|)
    ensures Knows(c, AfterWork(c, s), es)
    ensures !AfterWork(c, s).stage.Working? && AfterWork(c, s).primary == s.primary
  {
  }

  lemma StartKnows(c: Timeouts)
    ensures Knows(c, Start(c), [])
    ensures Start(c).stage.Working? <==> Accepted(c.work, c.workDrain) && c.phases != [] && 1 <= c.phases[0]
    ensures !Start(c).stage.Working? ==>
              Start(c).primary == if Accepted(c.work, c.workDrain) && c.phases == [] then None else Some(InvalidTimeout)
  {
    assert Fulfilments(0) == [];
  }

  lemma Snoc(es: seq<Event>, e: Event)
    ensures (es + [e])[..|es|] == es
    ensures Happenings(es + [e]) == Happenings(es) + if e.Advance? then [] else [e]
    ensures Stopped(es + [e]) <==> Stopped(es) || e.Fire?
    ensures forall f :: f in es + [e] <==> f in es || f == e
  {
    assert (es + [e])[..|es|] == es;
    if Stopped(es) {
      var f :| f in es && f.Fire?;
      assert f in es + [e];
    }
    if e.Fire? {
      assert e in es + [e];
    }
  }

  lemma FireAtWork(c: Timeouts, s: State, es: seq<Event>, timer: TimerKind)
    requires s.stage.Working? && Knows(c, s, es) && Enabled(s, Fire(timer))
    ensures var t := FireTimer(c, s, timer);
            && Knows(c, t, es + [Fire(timer)])
            && (!t.stage.Working? ==>
                  && (timer == PhaseDrainTimer || timer == WorkDrainTimer)
                  && t.primary == WorkError(c, es + [Fire(timer)], |es|))
  {
    Snoc(es, Fire(timer));
  }

  lemma PhaseAtWork(c: Timeouts, s: State, es: seq<Event>, outcome: Outcome)
    requires s.stage.Working? && Knows(c, s, es)
    ensures var t := PhaseDone(c, s, outcome);
            && Knows(c, t, es + [PhaseSettles(outcome)])
            && (!t.stage.Working? ==> t.primary == WorkError(c, es + [PhaseSettles(outcome)], |es|))
  {
    Snoc(es, PhaseSettles(outcome));
    assert Fulfilments(s.stage.phase + 1) == Fulfilments(s.stage.phase) + [PhaseSettles(Fulfilled)];
  }

  lemma StepAtCleanup(c: Timeouts, s: State, es: seq<Event>, e: Event)
    requires s.stage.CleaningUp? && Knows(c, s, es) && Enabled(s, e)
    ensures var t := Step(c, s, e);
            && Knows(c, t, es + [e])
            && t.primary == s.primary && !t.stage.Working?
            && (t.stage.Settled? ==>
                  && (e.CleanupSettles? || e == Fire(CleanupDrainTimer))
                  && t.cleanupFailure == CleanupError(es + [e], |es|))
  {
    Snoc(es, e);
  }

  lemma StepKnows(c: Timeouts, s: State, es: seq<Event>, e: Event)
    requires Knows(c, s, es) && Enabled(s, e)
    ensures Knows(c, Step(c, s, e), es + [e])
  {
    if s.stage.CleaningUp? {
      StepAtCleanup(c, s, es, e);
    } else {
      match e
      case Fire(timer) => FireAtWork(c, s, es, timer);
      case PhaseSettles(outcome) => PhaseAtWork(c, s, es, outcome);
      case Advance(_) => Snoc(es, e);
    }
  }

  lemma {:induction false} ExecKnows(c: Timeouts, es: seq<Event>)
    requires Exec(c, es).Some?
    ensures Knows(c, Exec(c, es).value, es)
  {
    if es == [] {
      StartKnows(c);
    } else {
      var front := es[..|es| - 1];
      ExecKnows(c, front);
      StepKnows(c, Exec(c, front).value, front, es[|es| - 1]);
      assert front + [es[|es| - 1]] == es;
    }
  }

  // ---------- the verdict ----------

  lemma LastStep(c: Timeouts, es: seq<Event>)
    requires es != [] && Exec(c, es).Some?
    ensures var front := es[..|es| - 1];
            && front + [es[|es| - 1]] == es
            && Exec(c, front).Some? && Knows(c, Exec(c, front).value, front)
            && Enabled(Exec(c, front).value, es[|es| - 1])
            && Exec(c, es).value == Step(c, Exec(c, front).value, es[|es| - 1])
  {
    ExecKnows(c, es[..|es| - 1]);
  }

  /** What the work reports is decided by the event that ends it and by what was stopped
      before; nothing that happens later changes it. */
  lemma {:induction false} WorkReports(c: Timeouts, es: seq<Event>, i: nat)
    requires Exec(c, es).Some? && WorkEndsAt(c, es, i)
    ensures es[i].PhaseSettles? || es[i] == Fire(PhaseDrainTimer) || es[i] == Fire(WorkDrainTimer)
    ensures !Exec(c, es).value.stage.Working?
    ensures Exec(c, es).value.primary == WorkError(c, es, i)
  {
    var n := |es| - 1;
    var front := es[..n];
    LastStep(c, es);
    var s := Exec(c, front).value;
    if i == n {
      assert es[..i + 1] == es;
      match es[n]
      case Fire(timer) => FireAtWork(c, s, front, timer);
      case PhaseSettles(outcome) => PhaseAtWork(c, s, front, outcome);
      case Advance(_) => assert false;
    } else {
      assert front[..i] == es[..i] && front[..i + 1] == es[..i + 1];
      WorkReports(c, front, i);
      StepAtCleanup(c, s, front, es[n]);
    }
  }

  lemma {:induction false} WorkHasAnEnd(c: Timeouts, es: seq<Event>)
    requires Exec(c, es).Some? && !Exec(c, es).value.stage.Working? && Start(c).stage.Working?
    ensures exists i :: WorkEndsAt(c, es, i)
  {
    var n := |es| - 1;
    var front := es[..n];
    LastStep(c, es);
    if Exec(c, front).value.stage.Working? {
      assert es[..n + 1] == es;
      assert WorkEndsAt(c, es, n);
    } else {
      WorkHasAnEnd(c, front);
      var i: nat :| WorkEndsAt(c, front, i);
      assert front[..i] == es[..i] && front[..i + 1] == es[..i + 1];
      assert WorkEndsAt(c, es, i);
    }
  }

  /** Work whose timeouts are rejected before its first phase reports that, and a plan
      without phases has nothing to report. */
  lemma {:induction false} WorkThatNeverBegins(c: Timeouts, es: seq<Event>)
    requires Exec(c, es).Some? && !Start(c).stage.Working?
    ensures !Exec(c, es).value.stage.Working?
    ensures Exec(c, es).value.primary ==
            if Accepted(c.work, c.workDrain) && c.phases == [] then None else Some(InvalidTimeout)
  {
    if es == [] {
      StartKnows(c);
    } else {
      WorkThatNeverBegins(c, es[..|es| - 1]);
      LastStep(c, es);
      StepAtCleanup(c, Exec(c, es[..|es| - 1]).value, es[..|es| - 1], es[|es| - 1]);
    }
  }

  /** What a called cleanup reports is decided by the event that ends it and by what was
      stopped before. */
  lemma CleanupReports(c: Timeouts, es: seq<Event>, j: nat)
    requires Exec(c, es).Some? && CleanupEndsAt(c, es, j)
    ensures j == |es| - 1 && Exec(c, es).value.stage.Settled?
    ensures es[j].CleanupSettles? || es[j] == Fire(CleanupDrainTimer)
    ensures Exec(c, es).value.cleanupFailure == CleanupError(es, j)
  {
    ExecKnows(c, es[..j]);
    PrefixRuns(c, es, j);
    StepAtCleanup(c, Exec(c, es[..j]).value, es[..j], es[j]);
    assert es[..j] + [es[j]] == es[..j + 1];
    if j + 1 < |es| {
      PrefixRuns(c, es, j + 1);
    } else {
      assert es[..j + 1] == es;
    }
  }

  /** Once the plan has settled, its cleanup was called unless the work reported a drain
      failure or the timeouts of the cleanup are rejected; it then reports one of these. */
  lemma CleanupCalledIff(c: Timeouts, es: seq<Event>)
    requires Exec(c, es).Some? && Exec(c, es).value.stage.Settled?
    ensures var s := Exec(c, es).value;
            && (s.cleanupCall.Called? <==> s.primary != Some(DrainFailure) && Accepted(c.cleanup, c.cleanupDrain))
            && (s.cleanupCall == NotCalled ==>
                  s.cleanupFailure ==
                  Some(if s.primary == Some(DrainFailure) then CleanupSuppressed else InvalidTimeout))
  {
    ExecKnows(c, es);
  }

  /** Whatever drains was stopped: by its own deadline where the state says so, and otherwise by
      one around it. */
  lemma DrainsForCause(c: Timeouts, es: seq<Event>)
    requires Exec(c, es).Some?
    ensures match Exec(c, es).value.stage
            case Working(_, outer, inner) =>
              && (outer == Draining(true) ==> Fire(WorkTimer) in es)
              && (outer == Draining(false) ==> Fire(TotalTimer) in es)
              && (inner == Draining(true) ==> Fire(PhaseTimer) in es)
              && (inner == Draining(false) ==> WorkStopped(es))
              && (inner == Racing ==> !Stopped(es))
            case CleaningUp(race) =>
              && (race == Draining(true) ==> Fire(CleanupTimer) in es)
              && (race == Draining(false) ==> Fire(TotalTimer) in es)
              && (race == Racing ==> !CleanupStopped(es))
            case Settled => true
  {
    ExecKnows(c, es);
  }

  /** The work fails with an error of a phase exactly when a phase rejects with it before any
      timer has fired, and with a missed deadline only after one has. */
  lemma OperationFailureIff(c: Timeouts, es: seq<Event>)
    requires Exec(c, es).Some?
    ensures Exec(c, es).value.primary == Some(OperationFailure) <==>
            exists i :: 0 <= i < |es| && es[i] == PhaseSettles(Rejected(false)) && !Stopped(es[..i])
    ensures Exec(c, es).value.primary == Some(DeadlineFailure) ==> Stopped(es)
  {
    var s := Exec(c, es).value;
    ExecKnows(c, es);
    if !s.stage.Working? {
      if Start(c).stage.Working? {
        WorkHasAnEnd(c, es);
        var i: nat :| WorkEndsAt(c, es, i);
        WorkReports(c, es, i);
      } else {
        WorkThatNeverBegins(c, es);
      }
    }
    forall i | 0 <= i < |es| && es[i] == PhaseSettles(Rejected(false)) && !Stopped(es[..i])
      ensures s.primary == Some(OperationFailure)
    {
      PrefixRuns(c, es, i);
      ExecKnows(c, es[..i]);
      PhaseAtWork(c, Before(c, es, i).value, es[..i], Rejected(false));
      assert WorkEndsAt(c, es, i);
      WorkReports(c, es, i);
    }
  }

  // ---------- success ----------

  lemma {:induction false} OnlyFulfilled(c: Timeouts, es: seq<Event>, n: nat)
    requires TimeoutsValid(c) && n <= |c.phases|
    requires Exec(c, es).Some? && Happenings(es) == Fulfilments(n)
    ensures var s := Exec(c, es).value;
            if n < |c.phases| then s.stage == Working(n, Racing, Racing)
            else s.stage == CleaningUp(Racing) && s.primary == None
    decreases |es|
  {
    if es == [] {
      assert Fulfilments(0) == [];
      assert |Fulfilments(n)| == n;
    } else {
      var front := es[..|es| - 1];
      var e := es[|es| - 1];
      LastStep(c, es);
      if e.Advance? {
        OnlyFulfilled(c, front, n);
      } else {
        assert Happenings(es)[|Happenings(es)| - 1] == e;
        assert Fulfilments(n)[..n - 1] == Fulfilments(n - 1);
        assert Happenings(front) == Happenings(es)[..n - 1];
        OnlyFulfilled(c, front, n - 1);
      }
    }
  }

  lemma {:induction false} ReachesSuccess(c: Timeouts, es: seq<Event>)
    requires TimeoutsValid(c) && Exec(c, es).Some?
    requires Happenings(es) == Fulfilments(|c.phases|) + [CleanupSettles(Fulfilled)]
    ensures Exec(c, es).value.stage.Settled? && ReportOf(Exec(c, es).value) == Resolves
  {
    var front := es[..|es| - 1];
    var e := es[|es| - 1];
    LastStep(c, es);
    if e.Advance? {
      ReachesSuccess(c, front);
    } else {
      assert Happenings(es)[|Happenings(es)| - 1] == e;
      assert Happenings(front) == Happenings(es)[..|c.phases|] == Fulfilments(|c.phases|);
      OnlyFulfilled(c, front, |c.phases|);
    }
  }

  /** The plan resolves exactly in the runs where, besides the clock, nothing happened but
      that every phase fulfilled in turn and then the cleanup did. */
  lemma ResolvesIff(c: Timeouts, es: seq<Event>)
    requires Exec(c, es).Some?
    ensures Exec(c, es).value.stage.Settled? && ReportOf(Exec(c, es).value) == Resolves <==>
            TimeoutsValid(c) && Happenings(es) == Fulfilments(|c.phases|) + [CleanupSettles(Fulfilled)]
  {
    ExecKnows(c, es);
    if TimeoutsValid(c) && Happenings(es) == Fulfilments(|c.phases|) + [CleanupSettles(Fulfilled)] {
      ReachesSuccess(c, es);
    }
  }

  lemma {:induction false} FulfilmentsRun(c: Timeouts, n: nat)
    requires TimeoutsValid(c) && n <= |c.phases|
    ensures Exec(c, Fulfilments(n)).Some? && Happenings(Fulfilments(n)) == Fulfilments(n)
  {
    if n == 0 {
      assert Fulfilments(0) == [];
    } else {
      var front := Fulfilments(n - 1);
      assert Fulfilments(n) == front + [PhaseSettles(Fulfilled)];
      FulfilmentsRun(c, n - 1);
      OnlyFulfilled(c, front, n - 1);
      ExecKnows(c, front);
      Extend(c, front, PhaseSettles(Fulfilled));
      Snoc(front, PhaseSettles(Fulfilled));
    }
  }

  /** With timeouts the deadlines accept, there is a run that resolves. */
  lemma SomeRunResolves(c: Timeouts) returns (es: seq<Event>)
    requires TimeoutsValid(c)
    ensures Exec(c, es).Some? && Exec(c, es).value.stage.Settled?
    ensures ReportOf(Exec(c, es).value) == Resolves
  {
    var work := Fulfilments(|c.phases|);
    FulfilmentsRun(c, |c.phases|);
    OnlyFulfilled(c, work, |c.phases|);
    Extend(c, work, CleanupSettles(Fulfilled));
    Snoc(work, CleanupSettles(Fulfilled));
    es := work + [CleanupSettles(Fulfilled)];
    ReachesSuccess(c, es);
  }
}
