/** How long a plan can take at most, for any timeouts at all, and exactly which timeouts
    keep every run within the plan deadline. */
module AcceptanceDeadlineBound {
  import opened DeadlineScheduler
  import opened Numbers
  import opened Options
  import opened AcceptanceDeadlines
  import opened AcceptanceTheorems

  /** From phase k on, where the first rejected phase timeout stands, or the end. */
  function ValidFrom(c: Timeouts, k: nat): (v: nat)
    requires k <= |c.phases|
    ensures k <= v <= |c.phases| && (v < |c.phases| ==> c.phases[v] < 1)
    ensures PhasesValid(c, k) ==> PhasesValid(c, v)
    decreases |c.phases| - k
  {
    if k == |c.phases| || c.phases[k] < 1 then k else ValidFrom(c, k + 1)
  }

  /** The number of phases before the first one with a rejected timeout. */
  function ValidPhases(c: Timeouts): nat {
    ValidFrom(c, 0)
  }

  /** The longest the work can take: its phases run until they or the work miss their
      deadline, and then drain. */
  function WorkTime(c: Timeouts): int {
    if !c.WorkValid() || ValidPhases(c) == 0 then 0
    else Min(c.work, PhaseSum(c, ValidPhases(c))) + c.workDrain
  }

  predicate Fits(c: Timeouts) {
    WorkTime(c) + c.CleanupBound() <= c.PlanDeadline()
  }

  // ---------- no run takes longer ----------

  lemma {:induction false} PhaseSumGrows(c: Timeouts, j: nat, k: nat)
    requires j <= k && PhasesValid(c, k)
    ensures 0 <= PhaseSum(c, j) <= PhaseSum(c, k)
    decreases k
  {
    if j < k {
      PhaseSumGrows(c, j, k - 1);
    } else if j > 0 {
      PhaseSumGrows(c, j - 1, k - 1);
    }
  }

  lemma ValidPhasesCover(c: Timeouts, k: nat)
    requires PhasesValid(c, k)
    ensures k <= ValidPhases(c) && PhasesValid(c, ValidPhases(c))
    ensures 0 <= PhaseSum(c, k) <= PhaseSum(c, ValidPhases(c))
  {
    PhaseSumGrows(c, k, ValidPhases(c));
  }

  ghost predicate PhaseOnTime(c: Timeouts, s: State)
    requires s.stage.Working?
  {
    var k := s.stage.phase;
    && c.WorkValid() && PhasesValid(c, k + 1)
    && s.phaseStart <= PhaseSum(c, k)
    && (WorkTimer in s.timers.pending ==> s.timers.pending[WorkTimer].due == c.work)
    && if s.stage.inner.Racing? then
         && s.stage.outer.Racing? && WorkTimer in s.timers.pending
         && Scheduled(s, PhaseTimer, s.phaseStart + c.phases[k])
         && s.now <= c.work && s.now <= s.phaseStart + c.phases[k]
       else
         PhaseDrainTimer in s.timers.pending && s.now <= s.timers.pending[PhaseDrainTimer].due <= WorkTime(c)
  }

  ghost predicate CleanupOnTime(c: Timeouts, s: State)
    requires s.stage.CleaningUp?
  {
    && c.CleanupValid()
    && if s.stage.race.Racing? then
         CleanupTimer in s.timers.pending && s.now <= s.timers.pending[CleanupTimer].due <= WorkTime(c) + c.cleanup
       else
         && CleanupDrainTimer in s.timers.pending
         && s.now <= s.timers.pending[CleanupDrainTimer].due <= WorkTime(c) + c.CleanupBound()
  }

  ghost predicate OnTime(c: Timeouts, s: State) {
    && 0 <= s.now <= WorkTime(c) + c.CleanupBound()
    && (s.totalAborted ==> c.PlanDeadline() <= s.now)
    && (TotalTimer in s.timers.pending ==> s.timers.pending[TotalTimer].due == c.PlanDeadline())
    && match s.stage
       case Working(_, _, _) => PhaseOnTime(c, s)
       case CleaningUp(_) => CleanupOnTime(c, s)
       case Settled => true
  }

  /** In the racing stages there is time left before the plan deadline. */
  lemma RacingIsEarly(c: Timeouts, s: State)
    requires Fits(c) && OnTime(c, s)
    ensures s.stage.Working? ==> s.now <= WorkTime(c)
    ensures s.stage.Working? && s.stage.inner.Racing? ==> s.now < c.PlanDeadline()
    ensures s.stage.CleaningUp? && s.stage.race.Racing? ==> s.now < c.PlanDeadline()
  {
    if s.stage.Working? {
      ValidPhasesCover(c, s.stage.phase + 1);
    }
  }

  lemma AfterWorkOnTime(c: Timeouts, s: State)
    requires Fits(c) && 0 <= s.now <= WorkTime(c)
    requires s.totalAborted ==> c.PlanDeadline() <= s.now
    requires TotalTimer in s.timers.pending ==> s.timers.pending[TotalTimer].due == c.PlanDeadline()
    ensures OnTime(c, AfterWork(c, s))
  {
  }

  lemma StartPhaseOnTime(c: Timeouts, s: State, k: nat)
    requires Fits(c) && c.WorkValid() && PhasesValid(c, k)
    requires 0 <= s.now <= c.work && s.now <= PhaseSum(c, k) && s.now <= WorkTime(c)
    requires Scheduled(s, WorkTimer, c.work) && !s.totalAborted
    requires TotalTimer in s.timers.pending ==> s.timers.pending[TotalTimer].due == c.PlanDeadline()
    ensures OnTime(c, StartPhase(c, s, k, Racing))
  {
    if k < |c.phases| && 1 <= c.phases[k] {
      ValidPhasesCover(c, k + 1);
    }
  }

  lemma StartOnTime(c: Timeouts)
    requires Fits(c)
    ensures OnTime(c, Start(c))
  {
    ValidPhasesCover(c, 0);
    var timers := Queue(map[], 0).Schedule(TotalTimer, c.PlanDeadline());
    var s := State(0, timers, Settled, false, 0, false, None, None, NotCalled);
    if c.WorkValid() {
      StartPhaseOnTime(c, s.(timers := timers.Schedule(WorkTimer, c.work)), 0);
    } else {
      AfterWorkOnTime(c, s.(primary := Some(InvalidTimeout)));
    }
  }

  lemma FireTotalOnTime(c: Timeouts, s: State)
    requires Fits(c) && OnTime(c, s) && Enabled(s, Fire(TotalTimer)) && s.stage.Working?
    ensures OnTime(c, FireTimer(c, s, TotalTimer))
  {
    RacingIsEarly(c, s);
  }

  lemma FireAbortOnTime(c: Timeouts, s: State, timer: TimerKind)
    requires Fits(c) && OnTime(c, s) && Enabled(s, Fire(timer)) && s.stage.Working?
    requires timer.WorkTimer? || timer.PhaseTimer?
    ensures OnTime(c, FireTimer(c, s, timer))
  {
    RacingIsEarly(c, s);
    ValidPhasesCover(c, s.stage.phase + 1);
  }

  lemma FireDrainOnTime(c: Timeouts, s: State, timer: TimerKind)
    requires Fits(c) && OnTime(c, s) && Enabled(s, Fire(timer)) && s.stage.Working?
    requires timer.WorkDrainTimer? || timer.PhaseDrainTimer?
    ensures OnTime(c, FireTimer(c, s, timer))
  {
    RacingIsEarly(c, s);
  }

  lemma FireWorkingOnTime(c: Timeouts, s: State, timer: TimerKind)
    requires Fits(c) && OnTime(c, s) && Enabled(s, Fire(timer)) && s.stage.Working?
    ensures OnTime(c, FireTimer(c, s, timer))
  {
    match timer
    case TotalTimer => FireTotalOnTime(c, s);
    case WorkTimer => FireAbortOnTime(c, s, timer);
    case PhaseTimer => FireAbortOnTime(c, s, timer);
    case WorkDrainTimer => FireDrainOnTime(c, s, timer);
    case PhaseDrainTimer => FireDrainOnTime(c, s, timer);
    case _ =>
  }

  lemma FireCleaningOnTime(c: Timeouts, s: State, timer: TimerKind)
    requires Fits(c) && OnTime(c, s) && Enabled(s, Fire(timer)) && s.stage.CleaningUp?
    ensures OnTime(c, FireTimer(c, s, timer))
  {
    RacingIsEarly(c, s);
  }

  lemma PhaseDoneOnTime(c: Timeouts, s: State, outcome: Outcome)
    requires Fits(c) && OnTime(c, s) && Enabled(s, PhaseSettles(outcome))
    ensures OnTime(c, PhaseDone(c, s, outcome))
  {
    RacingIsEarly(c, s);
    var Working(k, outer, inner) := s.stage;
    ValidPhasesCover(c, k + 1);
    if inner.Racing? && outcome.Fulfilled? {
      var t := s.(phaseActive := false, timers := s.timers.Cancel(PhaseTimer).Cancel(PhaseDrainTimer));
      StartPhaseOnTime(c, t, k + 1);
    }
  }

  lemma StepOnTime(c: Timeouts, s: State, e: Event)
    requires Fits(c) && OnTime(c, s) && Enabled(s, e)
    ensures OnTime(c, Step(c, s, e))
  {
    match e
    case Fire(timer) =>
      if s.stage.Working? {
        FireWorkingOnTime(c, s, timer);
      } else {
        FireCleaningOnTime(c, s, timer);
      }
    case PhaseSettles(outcome) => PhaseDoneOnTime(c, s, outcome);
    case Advance(_) =>
      if s.stage.Working? {
        ValidPhasesCover(c, s.stage.phase + 1);
      }
    case _ =>
  }

  lemma {:induction false} ExecOnTime(c: Timeouts, es: seq<Event>)
    requires Fits(c) && Exec(c, es).Some?
    ensures OnTime(c, Exec(c, es).value)
  {
    if es == [] {
      StartOnTime(c);
    } else {
      ExecOnTime(c, es[..|es| - 1]);
      StepOnTime(c, Exec(c, es[..|es| - 1]).value, es[|es| - 1]);
    }
  }

  // ---------- some run takes that long ----------

  /** Phase k has just begun and nothing has been aborted. */
  ghost predicate Begun(c: Timeouts, s: State, k: nat, time: int) {
    && s.stage == Working(k, Racing, Racing) && k < |c.phases|
    && s.now == time && s.phaseStart == time && s.phaseActive && !s.totalAborted
    && s.timers.pending.Keys == {TotalTimer, WorkTimer, PhaseTimer}
    && Scheduled(s, TotalTimer, c.PlanDeadline())
    && Scheduled(s, WorkTimer, c.work)
    && Scheduled(s, PhaseTimer, time + c.phases[k])
  }

  ghost predicate Begins(c: Timeouts, es: seq<Event>, k: nat, time: int) {
    Exec(c, es).Some? && Begun(c, Exec(c, es).value, k, time)
  }

  /** Phase k can begin at every time its predecessors' timeouts allow. */
  lemma {:induction false} PhaseCanBegin(c: Timeouts, k: nat, time: int) returns (es: seq<Event>)
    requires c.WorkValid() && PhasesValid(c, k + 1)
    requires 0 <= time <= PhaseSum(c, k) && time <= c.work && time <= c.PlanDeadline()
    ensures Begins(c, es, k, time)
    decreases k
  {
    if k == 0 {
      es := [];
    } else {
      var earlier := Min(time, PhaseSum(c, k - 1));
      PhaseSumGrows(c, 0, k - 1);
      es := PhaseCanBegin(c, k - 1, earlier);
      if earlier < time {
        Extend(c, es, Advance(time));
        es := es + [Advance(time)];
      }
      Extend(c, es, PhaseSettles(Fulfilled));
      es := es + [PhaseSettles(Fulfilled)];
    }
  }

  predicate IsDrainTimer(k: TimerKind) {
    k.WorkDrainTimer? || k.PhaseDrainTimer? || k.CleanupDrainTimer?
  }

  /** The drain window an aborting timer opens. */
  function DrainWindow(c: Timeouts, s: State): int {
    if s.stage.CleaningUp? then c.cleanupDrain else c.workDrain
  }

  /** Unsettled, with every drain window that is open or that a pending timer can open
      closing after the given time. */
  ghost predicate Endures(c: Timeouts, s: State, time: int) {
    && !s.stage.Settled? && s.now <= time
    && (if s.stage.Working? then c.WorkValid() && s.phaseActive && CleanupDrainTimer !in s.timers.pending
        else c.CleanupValid())
    && (TotalTimer in s.timers.pending ==> s.timers.pending[TotalTimer].due == c.PlanDeadline())
    && forall k <- s.timers.pending.Keys ::
         && s.now <= s.timers.pending[k].due
         && time < s.timers.pending[k].due + if IsDrainTimer(k) then 0 else DrainWindow(c, s)
  }

  /** How many pending timers can still open a drain window. */
  function Aborting(s: State): set<TimerKind> {
    set k | k in s.timers.pending && !IsDrainTimer(k)
  }

  /** What firing a timer that is not a drain timer does: at most, drain windows open. */
  lemma FireOpensDrains(c: Timeouts, s: State, k: TimerKind)
    requires !s.stage.Settled? && k in s.timers.pending && !IsDrainTimer(k)
    ensures var t := FireTimer(c, s, k);
            && t.now == s.now && t.stage.Working? == s.stage.Working? && !t.stage.Settled?
            && t.phaseActive == s.phaseActive && (k != TotalTimer ==> t.totalAborted == s.totalAborted)
            && k !in t.timers.pending
            && (s.stage.Working? && CleanupDrainTimer !in s.timers.pending ==> CleanupDrainTimer !in t.timers.pending)
            && forall j <- t.timers.pending.Keys ::
                 || (j in s.timers.pending && t.timers.pending[j] == s.timers.pending[j])
                 || (IsDrainTimer(j) && t.timers.pending[j].due == s.now + DrainWindow(c, s))
  {
  }

  lemma FireEndures(c: Timeouts, s: State, k: TimerKind, time: int)
    requires Endures(c, s, time) && k in s.timers.pending && s.now == s.timers.pending[k].due && !IsDrainTimer(k)
    ensures Endures(c, FireTimer(c, s, k), time)
    ensures Aborting(FireTimer(c, s, k)) < Aborting(s)
  {
    FireOpensDrains(c, s, k);
    var t := FireTimer(c, s, k);
    assert k in Aborting(s) && k !in Aborting(t);
  }

  /** The clock moves to the earliest timer, which fires. */
  lemma FireEarliest(c: Timeouts, es: seq<Event>, k: TimerKind, time: int) returns (longer: seq<Event>)
    requires Exec(c, es).Some? && Endures(c, Exec(c, es).value, time)
    requires Exec(c, es).value.timers.IsNext(k) && Exec(c, es).value.timers.pending[k].due <= time
    ensures Exec(c, longer).Some? && Endures(c, Exec(c, longer).value, time)
    ensures var s, t := Exec(c, es).value, Exec(c, longer).value;
            && Aborting(t) < Aborting(s) && t.stage.Working? == s.stage.Working?
            && (time < c.PlanDeadline() ==> t.totalAborted == s.totalAborted)
  {
    var s := Exec(c, es).value;
    var due := s.timers.pending[k].due;
    longer := es;
    if s.now < due {
      Extend(c, es, Advance(due));
      longer := es + [Advance(due)];
    }
    var t := s.(now := due);
    assert Exec(c, longer) == Some(t) && Aborting(t) == Aborting(s);
    FireEndures(c, t, k, time);
    FireOpensDrains(c, t, k);
    Extend(c, longer, Fire(k));
    longer := longer + [Fire(k)];
  }

  /** A plan that endures some time can be unsettled after it, at the same stage, aborted by
      the absolute timer at most when that is due. */
  lemma {:induction false} CanOutlast(c: Timeouts, es: seq<Event>, time: int) returns (longer: seq<Event>)
    requires Exec(c, es).Some? && Endures(c, Exec(c, es).value, time)
    ensures Exec(c, longer).Some?
    ensures var s, t := Exec(c, es).value, Exec(c, longer).value;
            && t.now == time + 1 && !t.stage.Settled? && t.stage.Working? == s.stage.Working?
            && (t.stage.Working? ==> t.phaseActive && CleanupDrainTimer !in t.timers.pending)
            && (time < c.PlanDeadline() ==> t.totalAborted == s.totalAborted)
            && (TotalTimer in t.timers.pending ==> t.timers.pending[TotalTimer].due == c.PlanDeadline())
    decreases Aborting(Exec(c, es).value)
  {
    var q := Exec(c, es).value.timers;
    var last := true;
    if q.pending != map[] {
      var k := NextTimer(q, q.pending.Keys);
      last := time < q.pending[k].due;
      if !last {
        longer := FireEarliest(c, es, k, time);
        longer := CanOutlast(c, longer, time);
      }
    }
    if last {
      Extend(c, es, Advance(time + 1));
      longer := es + [Advance(time + 1)];
    }
  }

  /** The last phase that can start begins as late as it can. */
  lemma LastPhaseBegins(c: Timeouts, time: int) returns (es: seq<Event>)
    requires c.WorkValid() && ValidPhases(c) > 0 && 0 <= time < WorkTime(c)
    requires 0 <= c.PlanDeadline() && time <= c.PlanDeadline()
    ensures Exec(c, es).Some? && !Exec(c, es).value.totalAborted && Exec(c, es).value.stage.Working?
    ensures Endures(c, Exec(c, es).value, time)
  {
    var k := ValidPhases(c) - 1;
    ValidPhasesCover(c, k);
    ValidPhasesCover(c, k + 1);
    var begin := Min(Min(PhaseSum(c, k), c.work), time);
    es := PhaseCanBegin(c, k, begin);
  }

  /** The cleanup has just been called, nothing else is going on. */
  ghost predicate CleanupBegun(c: Timeouts, s: State) {
    && s.stage == CleaningUp(Racing) && c.CleanupValid()
    && s.timers.pending.Keys <= {TotalTimer, CleanupTimer}
    && (TotalTimer in s.timers.pending ==> s.timers.pending[TotalTimer].due == c.PlanDeadline())
    && Scheduled(s, CleanupTimer, s.now + c.cleanup)
  }

  /** The cleanup can be called as late as the work can take. */
  lemma CleanupCanBeginLate(c: Timeouts) returns (es: seq<Event>)
    requires c.CleanupValid() && WorkTime(c) <= c.PlanDeadline()
    ensures Exec(c, es).Some? && CleanupBegun(c, Exec(c, es).value) && Exec(c, es).value.now == WorkTime(c)
  {
    es := [];
    if c.WorkValid() && ValidPhases(c) > 0 {
      var k := ValidPhases(c);
      ValidPhasesCover(c, k);
      es := LastPhaseBegins(c, WorkTime(c) - 1);
      es := CanOutlast(c, es, WorkTime(c) - 1);
      RejectionCallsCleanup(c, Exec(c, es).value);
      Extend(c, es, PhaseSettles(Rejected(false)));
      es := es + [PhaseSettles(Rejected(false))];
    }
  }

  lemma RejectionCallsCleanup(c: Timeouts, s: State)
    requires s.stage.Working? && s.phaseActive && !s.totalAborted && c.CleanupValid()
    requires CleanupDrainTimer !in s.timers.pending
    requires TotalTimer in s.timers.pending ==> s.timers.pending[TotalTimer].due == c.PlanDeadline()
    ensures CleanupBegun(c, PhaseDone(c, s, Rejected(false))) && PhaseDone(c, s, Rejected(false)).now == s.now
  {
    var t := PhaseDone(c, s, Rejected(false));
    assert t.stage == CleaningUp(Racing);
    forall k <- t.timers.pending.Keys
      ensures k in {TotalTimer, CleanupTimer}
    {
      match k
      case CleanupDrainTimer =>
        assert false;
      case _ =>
    }
  }

  ghost predicate Overruns(c: Timeouts, es: seq<Event>) {
    Exec(c, es).Some? && c.PlanDeadline() < Exec(c, es).value.now
  }

  lemma SomeRunOverruns(c: Timeouts) returns (es: seq<Event>)
    requires !Fits(c)
    ensures Overruns(c, es)
  {
    var deadline := c.PlanDeadline();
    if deadline < 0 {
      es := [];
    } else if deadline < WorkTime(c) {
      es := LastPhaseBegins(c, deadline);
      es := CanOutlast(c, es, deadline);
    } else {
      es := CleanupCanBeginLate(c);
      es := CanOutlast(c, es, deadline);
    }
  }

  /** For all timeouts whatever: every run stays within the plan deadline if and only if
      the longest the work can take and then the cleanup fit before it. */
  lemma DeadlineHoldsIff(c: Timeouts)
    ensures (forall es :: !Overruns(c, es)) <==> Fits(c)
  {
    if Fits(c) {
      forall es | Exec(c, es).Some? {
        ExecOnTime(c, es);
      }
    } else {
      var es := SomeRunOverruns(c);
    }
  }
}
