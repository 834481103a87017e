/** When the timers of the acceptance plan fire, told from the events of its run. */
module AcceptanceTiming {
  import opened Numbers
  import opened Options
  import opened AcceptanceDeadlines

  /** What the clock read at the moments that timers wait from: when the last phase began and
      after how many others; when the work was over; and when a timer first stopped the work,
      its current phase, or the cleanup. */
  datatype Marks = Marks(
    clock: int,
    phaseBegin: int,
    phases: nat,
    workEnd: int,
    workStop: Option<int>,
    phaseStop: Option<int>,
    cleanupStop: Option<int>
  )

  function First(mark: Option<int>, now: bool, clock: int): Option<int> {
    if mark == None && now then Some(clock) else mark
  }

  function Mark(m: Marks, atWork: bool, e: Event): Marks {
    match e
    case Advance(time) => m.(clock := time, workEnd := if atWork then time else m.workEnd)
    case PhaseSettles(_) => m.(phaseBegin := m.clock, phases := m.phases + 1)
    case Fire(timer) =>
      m.(workStop := First(m.workStop, timer.WorkTimer? || timer.TotalTimer?, m.clock),
         phaseStop := First(m.phaseStop, timer.PhaseTimer? || timer.WorkTimer? || timer.TotalTimer?, m.clock),
         cleanupStop := First(m.cleanupStop, timer.CleanupTimer? || timer.TotalTimer?, m.clock))
    case _ => m
  }

  function MarksOf(c: Timeouts, es: seq<Event>): Marks
    requires Exec(c, es).Some?
  {
    if es == [] then Marks(0, 0, 0, 0, None, None, None)
    else
      var front := es[..|es| - 1];
      Mark(MarksOf(c, front), Exec(c, front).value.stage.Working?, es[|es| - 1])
  }

  function Or(mark: Option<int>, other: int): int {
    if mark.Some? then mark.value else other
  }

  /** When a timer is due: its own timeout, or its drain window, after that begins. The drain
      window of a cleanup that begins after the plan deadline begins with it. */
  function Due(c: Timeouts, m: Marks, timer: TimerKind): int {
    match timer
    case TotalTimer => c.total - c.close
    case WorkTimer => c.work
    case PhaseTimer => m.phaseBegin + if m.phases < |c.phases| then c.phases[m.phases] else 0
    case WorkDrainTimer => Or(m.workStop, 0) + c.workDrain
    case PhaseDrainTimer => Or(m.phaseStop, 0) + c.workDrain
    case CleanupTimer => m.workEnd + c.cleanup
    case CleanupDrainTimer => Max(m.workEnd, Or(m.cleanupStop, 0)) + c.cleanupDrain
  }

  predicate OnTime(c: Timeouts, m: Marks, s: State, timer: TimerKind) {
    timer in s.timers.pending ==>
      && s.timers.pending[timer].due == Due(c, m, timer)
      && s.now <= Max(0, Due(c, m, timer))
  }

  const CLEANUP_TIMERS := {TotalTimer, CleanupTimer, CleanupDrainTimer}

  predicate TimedWork(c: Timeouts, m: Marks, s: State)
    requires s.stage.Working?
  {
    && c.WorkValid() && PhasesValid(c, s.stage.phase + 1)
    && s.stage.phase == m.phases && m.workEnd == m.clock
    && s.timers.pending.Keys <= WORK_TIMERS
    && (s.totalAborted <==> m.cleanupStop.Some?) && (m.cleanupStop.Some? ==> m.phaseStop.Some?)
    && (s.stage.outer.Draining? <==> m.workStop.Some?) && (s.stage.inner.Draining? <==> m.phaseStop.Some?)
    && (s.stage.outer.Draining? ==> s.stage.inner.Draining?)
    && (WorkDrainTimer in s.timers.pending ==> s.stage.outer.Draining?)
    && (PhaseDrainTimer in s.timers.pending ==> s.stage.inner.Draining?)
    && OnTime(c, m, s, TotalTimer) && OnTime(c, m, s, WorkTimer) && OnTime(c, m, s, PhaseTimer)
    && OnTime(c, m, s, WorkDrainTimer) && OnTime(c, m, s, PhaseDrainTimer)
  }

  predicate TimedCleanup(c: Timeouts, m: Marks, s: State)
    requires s.stage.CleaningUp?
  {
    && c.CleanupValid() && m.workEnd <= s.now
    && s.timers.pending.Keys <= CLEANUP_TIMERS
    && (s.stage.race.Draining? <==> m.cleanupStop.Some?)
    && (CleanupDrainTimer in s.timers.pending ==> s.stage.race.Draining?)
    && OnTime(c, m, s, TotalTimer) && OnTime(c, m, s, CleanupTimer) && OnTime(c, m, s, CleanupDrainTimer)
  }

  predicate Timed(c: Timeouts, m: Marks, s: State) {
    && s.now == m.clock && 0 <= s.now
    && (m.cleanupStop.Some? ==> m.cleanupStop.value <= s.now)
    && match s.stage
       case Working(_, _, _) => TimedWork(c, m, s)
       case CleaningUp(_) => TimedCleanup(c, m, s)
       case Settled => true
  }

  // ---------- every step keeps them on time ----------

  lemma AfterWorkTimed(c: Timeouts, m: Marks, s: State)
    requires s.now == m.clock == m.workEnd && 0 <= s.now
    requires s.timers.pending.Keys <= {TotalTimer} && OnTime(c, m, s, TotalTimer)
    requires s.totalAborted <==> m.cleanupStop.Some?
    requires m.cleanupStop.Some? ==> m.cleanupStop.value <= s.now
    ensures Timed(c, m, AfterWork(c, s))
  {
  }

  lemma StartTimed(c: Timeouts)
    ensures Timed(c, MarksOf(c, []), Start(c))
  {
  }

  lemma LoopSettlesTimed(c: Timeouts, m: Marks, s: State, outer: Race, failure: Option<Failure>)
    requires s.now == m.clock == m.workEnd && 0 <= s.now
    requires s.timers.pending.Keys <= {TotalTimer, WorkTimer, WorkDrainTimer} && OnTime(c, m, s, TotalTimer)
    requires s.totalAborted <==> m.cleanupStop.Some?
    requires m.cleanupStop.Some? ==> m.cleanupStop.value <= s.now
    ensures Timed(c, m, LoopSettles(c, s, outer, failure))
  {
    var primary := if outer.Draining? then Some(DeadlineFailure) else failure;
    AfterWorkTimed(c, m, s.(timers := s.timers.Cancel(WorkTimer).Cancel(WorkDrainTimer), primary := primary));
  }

  /** A drain window runs out: the work is over. */
  lemma DrainFiresTimed(c: Timeouts, m: Marks, s: State, timer: TimerKind)
    requires Timed(c, m, s) && s.stage.Working? && Enabled(s, Fire(timer))
    requires timer == WorkDrainTimer || timer == PhaseDrainTimer
    ensures Timed(c, Mark(m, true, Fire(timer)), FireTimer(c, s, timer))
  {
    var t := s.(timers := s.timers.Cancel(timer));
    if timer == PhaseDrainTimer {
      if s.stage.inner.Draining? {
        var u := t.(timers := t.timers.Cancel(PhaseTimer));
        assert u.timers.pending.Keys <= {TotalTimer, WorkTimer, WorkDrainTimer};
        LoopSettlesTimed(c, m, u, s.stage.outer, Some(DrainFailure));
      }
    }
  }

  /** The work deadline, or that of the plan, passes: the work drains. */
  lemma AbortTimed(c: Timeouts, m: Marks, s: State, timer: TimerKind)
    requires Timed(c, m, s) && s.stage.Working? && Enabled(s, Fire(timer))
    requires timer == WorkTimer || timer == TotalTimer
    ensures Timed(c, Mark(m, true, Fire(timer)), FireTimer(c, s, timer))
  {
    if s.stage.outer.Draining? {
      AbortAgainTimed(c, m, s, timer);
    } else if s.stage.inner.Draining? {
      AbortDrainingTimed(c, m, s, timer);
    } else {
      AbortRacingTimed(c, m, s, timer);
    }
  }

  lemma AbortAgainTimed(c: Timeouts, m: Marks, s: State, timer: TimerKind)
    requires Timed(c, m, s) && s.stage.Working? && Enabled(s, Fire(timer)) && s.stage.outer.Draining?
    requires timer == WorkTimer || timer == TotalTimer
    ensures Timed(c, Mark(m, true, Fire(timer)), FireTimer(c, s, timer))
  {
  }

  lemma AbortDrainingTimed(c: Timeouts, m: Marks, s: State, timer: TimerKind)
    requires Timed(c, m, s) && s.stage.Working? && Enabled(s, Fire(timer))
    requires s.stage.outer.Racing? && s.stage.inner.Draining?
    requires timer == WorkTimer || timer == TotalTimer
    ensures Timed(c, Mark(m, true, Fire(timer)), FireTimer(c, s, timer))
  {
  }

  lemma AbortRacingTimed(c: Timeouts, m: Marks, s: State, timer: TimerKind)
    requires Timed(c, m, s) && s.stage.Working? && Enabled(s, Fire(timer))
    requires s.stage.outer.Racing? && s.stage.inner.Racing?
    requires timer == WorkTimer || timer == TotalTimer
    ensures Timed(c, Mark(m, true, Fire(timer)), FireTimer(c, s, timer))
  {
  }

  /** The deadline of a phase passes: the phase drains. */
  lemma PhaseFiresTimed(c: Timeouts, m: Marks, s: State)
    requires Timed(c, m, s) && s.stage.Working? && Enabled(s, Fire(PhaseTimer))
    ensures Timed(c, Mark(m, true, Fire(PhaseTimer)), FireTimer(c, s, PhaseTimer))
  {
  }

  lemma FireWorkTimed(c: Timeouts, m: Marks, s: State, timer: TimerKind)
    requires Timed(c, m, s) && s.stage.Working? && Enabled(s, Fire(timer))
    ensures Timed(c, Mark(m, true, Fire(timer)), FireTimer(c, s, timer))
  {
    if timer == WorkDrainTimer || timer == PhaseDrainTimer {
      DrainFiresTimed(c, m, s, timer);
    } else if timer == PhaseTimer {
      PhaseFiresTimed(c, m, s);
    } else {
      AbortTimed(c, m, s, timer);
    }
  }

  lemma StartPhaseTimed(c: Timeouts, m: Marks, s: State, k: nat)
    requires s.now == m.clock == m.workEnd == m.phaseBegin && 0 <= s.now && k == m.phases
    requires s.timers.pending.Keys <= {TotalTimer, WorkTimer}
    requires OnTime(c, m, s, TotalTimer) && OnTime(c, m, s, WorkTimer)
    requires c.WorkValid() && PhasesValid(c, k)
    requires !s.totalAborted && m.workStop == m.phaseStop == m.cleanupStop == None
    ensures Timed(c, m, StartPhase(c, s, k, Racing))
  {
    if k >= |c.phases| {
      LoopSettlesTimed(c, m, s, Racing, None);
    } else if c.phases[k] < 1 {
      LoopSettlesTimed(c, m, s, Racing, Some(InvalidTimeout));
    }
  }

  lemma PhaseTimed(c: Timeouts, m: Marks, s: State, outcome: Outcome)
    requires Timed(c, m, s) && s.stage.Working?
    ensures Timed(c, Mark(m, true, PhaseSettles(outcome)), PhaseDone(c, s, outcome))
  {
    var Working(k, outer, inner) := s.stage;
    var t := s.(phaseActive := false, timers := s.timers.Cancel(PhaseTimer).Cancel(PhaseDrainTimer));
    var n := Mark(m, true, PhaseSettles(outcome));
    assert t.timers.pending.Keys <= {TotalTimer, WorkTimer, WorkDrainTimer};
    if inner.Draining? {
      LoopSettlesTimed(c, n, t, outer, Some(DeadlineFailure));
    } else if outcome.Rejected? {
      LoopSettlesTimed(c, n, t, outer, outcome.Reason());
    } else {
      StartPhaseTimed(c, n, t, k + 1);
    }
  }

  lemma FireCleanupTimed(c: Timeouts, m: Marks, s: State, timer: TimerKind)
    requires Timed(c, m, s) && s.stage.CleaningUp? && Enabled(s, Fire(timer))
    ensures Timed(c, Mark(m, false, Fire(timer)), FireTimer(c, s, timer))
  {
    var t := s.(timers := s.timers.Cancel(timer));
    assert t.timers.pending.Keys <= s.timers.pending.Keys;
  }

  lemma CleanupTimed(c: Timeouts, m: Marks, s: State, e: Event)
    requires Timed(c, m, s) && s.stage.CleaningUp? && Enabled(s, e)
    ensures Timed(c, Mark(m, false, e), Step(c, s, e))
  {
    match e
    case Advance(time) => AdvanceTimed(c, m, s, time);
    case Fire(timer) => FireCleanupTimed(c, m, s, timer);
    case _ =>
  }

  lemma AdvanceTimed(c: Timeouts, m: Marks, s: State, time: int)
    requires Timed(c, m, s) && Enabled(s, Advance(time))
    ensures Timed(c, Mark(m, s.stage.Working?, Advance(time)), Step(c, s, Advance(time)))
  {
  }

  lemma StepTimed(c: Timeouts, m: Marks, s: State, e: Event)
    requires Timed(c, m, s) && Enabled(s, e)
    ensures Timed(c, Mark(m, s.stage.Working?, e), Step(c, s, e))
  {
    match e
    case Advance(time) => AdvanceTimed(c, m, s, time);
    case PhaseSettles(outcome) => PhaseTimed(c, m, s, outcome);
    case Fire(timer) =>
      if s.stage.Working? {
        FireWorkTimed(c, m, s, timer);
      } else {
        CleanupTimed(c, m, s, e);
      }
    case _ => CleanupTimed(c, m, s, e);
  }

  lemma {:induction false} ExecTimed(c: Timeouts, es: seq<Event>)
    requires Exec(c, es).Some?
    ensures Timed(c, MarksOf(c, es), Exec(c, es).value)
  {
    if es == [] {
      StartTimed(c);
    } else {
      var front := es[..|es| - 1];
      ExecTimed(c, front);
      StepTimed(c, MarksOf(c, front), Exec(c, front).value, es[|es| - 1]);
    }
  }

  lemma FiresWhenDue(c: Timeouts, m: Marks, s: State, timer: TimerKind)
    requires Timed(c, m, s) && Enabled(s, Fire(timer))
    ensures s.now == Max(0, Due(c, m, timer))
  {
    assert OnTime(c, m, s, timer);
  }

  /** For all timeouts and in every run, a timer that fires does so exactly when it is due, or
      at the start if that was before. */
  lemma TimersFireOnTime(c: Timeouts, es: seq<Event>, timer: TimerKind)
    requires Exec(c, es).Some? && Enabled(Exec(c, es).value, Fire(timer))
    ensures Exec(c, es).value.now == Max(0, Due(c, MarksOf(c, es), timer))
  {
    ExecTimed(c, es);
    FiresWhenDue(c, MarksOf(c, es), Exec(c, es).value, timer);
  }
}
