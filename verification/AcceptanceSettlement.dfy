/** Every plan can be settled by timers and the clock alone, whatever hangs. */
module AcceptanceSettlement {
  import opened Options
  import opened AcceptanceDeadlines
  import opened AcceptanceTheorems
  import opened AcceptanceDeadlineBound

  predicate OfTimeOnly(e: Event) {
    e.Fire? || e.Advance?
  }

  /** The race that is on has a timer that will end or abort it. */
  predicate Driven(s: State) {
    match s.stage
    case Working(_, outer, Racing) => outer.Racing? && PhaseTimer in s.timers.pending
    case Working(_, _, Draining(_)) => PhaseDrainTimer in s.timers.pending
    case CleaningUp(Racing) => CleanupTimer in s.timers.pending
    case CleaningUp(Draining(_)) => CleanupDrainTimer in s.timers.pending
    case Settled => true
  }

  lemma FireDriven(c: Timeouts, s: State, timer: TimerKind)
    requires Driven(s) && !s.stage.Settled? && timer in s.timers.pending
    ensures Driven(FireTimer(c, s, timer))
  {
  }

  lemma StepDriven(c: Timeouts, s: State, e: Event)
    requires Driven(s) && Enabled(s, e)
    ensures Driven(Step(c, s, e))
  {
    if e.Fire? {
      FireDriven(c, s, e.timer);
    }
  }

  lemma {:induction false} ExecDriven(c: Timeouts, es: seq<Event>)
    requires Exec(c, es).Some?
    ensures Driven(Exec(c, es).value)
  {
    if es != [] {
      ExecDriven(c, es[..|es| - 1]);
      StepDriven(c, Exec(c, es[..|es| - 1]).value, es[|es| - 1]);
    }
  }

  /** How far the plan is from its end. */
  function StagesLeft(s: State): nat {
    match s.stage
    case Working(_, _, _) => 2
    case CleaningUp(_) => 1
    case Settled => 0
  }

  /** At a later stage, or with fewer timers that can open drain windows, or with fewer
      timers. */
  predicate Closer(s: State, t: State) {
    || StagesLeft(t) < StagesLeft(s)
    || (StagesLeft(t) == StagesLeft(s) && Aborting(t) < Aborting(s))
    || (StagesLeft(t) == StagesLeft(s) && Aborting(t) == Aborting(s)
        && t.timers.pending.Keys < s.timers.pending.Keys)
  }

  lemma FireProgresses(c: Timeouts, s: State, timer: TimerKind)
    requires !s.stage.Settled? && timer in s.timers.pending
    ensures Closer(s, FireTimer(c, s, timer))
  {
    var t := FireTimer(c, s, timer);
    if IsDrainTimer(timer) {
      assert timer !in t.timers.pending || StagesLeft(t) < StagesLeft(s);
    } else {
      FireOpensDrains(c, s, timer);
      assert timer in Aborting(s) && timer !in Aborting(t);
    }
  }

  /** The run goes on by timers and the clock only. */
  predicate GoesOnByTime(es: seq<Event>, longer: seq<Event>) {
    es <= longer && forall i :: |es| <= i < |longer| ==> OfTimeOnly(longer[i])
  }

  /** The clock moves on to the earliest timer, if that is not due yet, and it fires. */
  lemma EarliestFires(c: Timeouts, es: seq<Event>) returns (longer: seq<Event>)
    requires Exec(c, es).Some? && !Exec(c, es).value.stage.Settled?
    ensures GoesOnByTime(es, longer)
    ensures Exec(c, longer).Some? && Closer(Exec(c, es).value, Exec(c, longer).value)
  {
    ExecDriven(c, es);
    var s := Exec(c, es).value;
    var timer := NextTimer(s.timers, s.timers.pending.Keys);
    var due := s.timers.pending[timer].due;
    if due <= s.now {
      longer := es + [Fire(timer)];
      Extend(c, es, Fire(timer));
      FireProgresses(c, s, timer);
    } else {
      var t := s.(now := due);
      Extend(c, es, Advance(due));
      longer := es + [Advance(due)] + [Fire(timer)];
      Extend(c, es + [Advance(due)], Fire(timer));
      assert Aborting(t) == Aborting(s);
      FireProgresses(c, t, timer);
    }
  }

  lemma {:induction false} TimeSettles(c: Timeouts, es: seq<Event>, s: State) returns (longer: seq<Event>, t: State)
    requires Exec(c, es) == Some(s)
    ensures GoesOnByTime(es, longer) && Exec(c, longer) == Some(t) && t.stage.Settled?
    decreases StagesLeft(s), Aborting(s), s.timers.pending.Keys
  {
    longer, t := es, s;
    if !s.stage.Settled? {
      var next := EarliestFires(c, es);
      longer, t := TimeSettles(c, next, Exec(c, next).value);
    }
  }

  /** For all timeouts whatever, however far a plan has come and whatever hangs from then
      on: timers and the clock alone settle it, and within the plan deadline if that holds. */
  lemma SettlesByTimeAlone(c: Timeouts, es: seq<Event>) returns (longer: seq<Event>)
    requires Exec(c, es).Some?
    ensures GoesOnByTime(es, longer)
    ensures Exec(c, longer).Some? && Exec(c, longer).value.stage.Settled?
    ensures Fits(c) ==> Exec(c, longer).value.now <= c.PlanDeadline()
  {
    var t;
    longer, t := TimeSettles(c, es, Exec(c, es).value);
    DeadlineHoldsIff(c);
    assert Fits(c) ==> !Overruns(c, longer);
  }

  /** An unsettled plan can always go on without any of its operations. */
  lemma NeverStuck(c: Timeouts, es: seq<Event>)
    requires Exec(c, es).Some? && !Exec(c, es).value.stage.Settled?
    ensures exists e :: OfTimeOnly(e) && Enabled(Exec(c, es).value, e)
  {
    ExecDriven(c, es);
    var s := Exec(c, es).value;
    var k := NextTimer(s.timers, s.timers.pending.Keys);
    if s.timers.pending[k].due <= s.now {
      assert Enabled(s, Fire(k));
    } else {
      assert Enabled(s, Advance(s.timers.pending[k].due));
    }
  }
}
