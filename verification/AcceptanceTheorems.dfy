/** What every run of the acceptance plan with headroom guarantees about time, and how long
    its runs can be. */
module AcceptanceTheorems {
  import opened DeadlineScheduler
  import opened Options
  import opened AcceptanceDeadlines

  function Before(c: Timeouts, es: seq<Event>, i: nat): Option<State>
    requires i <= |es|
  {
    Exec(c, es[..i])
  }

  lemma {:induction false} PrefixRuns(c: Timeouts, es: seq<Event>, i: nat)
    requires i <= |es| && Exec(c, es).Some?
    ensures Before(c, es, i).Some?
    ensures i < |es| ==>
              && Enabled(Before(c, es, i).value, es[i])
              && Before(c, es, i + 1) == Some(Step(c, Before(c, es, i).value, es[i]))
    decreases |es|
  {
    var n := |es|;
    if i == n {
      assert es[..n] == es;
    } else {
      var front := es[..n - 1];
      PrefixRuns(c, front, i);
      assert front[..i] == es[..i];
      if i + 1 < n {
        assert front[..i + 1] == es[..i + 1];
        assert front[i] == es[i];
      } else {
        assert es[..i + 1] == es;
      }
    }
  }

  lemma Extend(c: Timeouts, es: seq<Event>, e: Event)
    requires Exec(c, es).Some? && Enabled(Exec(c, es).value, e)
    ensures Exec(c, es + [e]) == Some(Step(c, Exec(c, es).value, e))
  {
    assert (es + [e])[..|es|] == es;
  }

  // ---------- time ----------

  /** With the timeouts the deadlines accept, the guard is exactly the headroom. */
  lemma AdmittedIsHeadroom(c: Timeouts)
    requires c.WorkValid() && c.CleanupValid()
    ensures c.Admitted() <==> c.Headroom()
  {
  }

  /** A rejected work timeout is not caught by the guard, and then the cleanup can
      still be running after the plan deadline. */
  lemma GuardAloneIsNotEnough()
    ensures exists c: Timeouts, es ::
              && c.Admitted() && Exec(c, es).Some?
              && Exec(c, es).value.stage.CleaningUp?
              && Exec(c, es).value.now > c.PlanDeadline()
  {
    var c := Timeouts(-20, 1, 10, 5, 0, 0, [1]);
    var s0 := Start(c);
    assert s0.stage == CleaningUp(Racing) && s0.timers.pending.Keys == {TotalTimer, CleanupTimer};
    Extend(c, [], Fire(TotalTimer));
    var s1 := Step(c, s0, Fire(TotalTimer));
    assert s1.timers.pending.Keys == {CleanupTimer, CleanupDrainTimer};
    Extend(c, [Fire(TotalTimer)], Advance(5));
  }

  /** Every state of every run lies before the plan deadline, and no race is ever cut
      short by the absolute timer: whatever drains was stopped by its own deadline or,
      for a phase, by the work deadline. */
  lemma PlanMeetsItsDeadline(c: Timeouts, es: seq<Event>)
    requires c.Headroom() && Exec(c, es).Some?
    ensures Exec(c, es).value.now <= c.PlanDeadline()
    ensures match Exec(c, es).value.stage
            case Working(_, outer, _) => outer == Racing || outer == Draining(true)
            case CleaningUp(race) => race == Racing || race == Draining(true)
            case Settled => true
  {
    ExecInv(c, es);
  }

  lemma {:induction false} NextTimer(q: Queue<TimerKind>, among: set<TimerKind>) returns (k: TimerKind)
    requires among != {} && among <= q.pending.Keys
    ensures k in among
    ensures forall j <- among ::
              || q.pending[k].due < q.pending[j].due
              || (q.pending[k].due == q.pending[j].due && q.pending[k].order <= q.pending[j].order)
    decreases among
  {
    k :| k in among;
    var rest := among - {k};
    if rest != {} {
      var m := NextTimer(q, rest);
      if || q.pending[m].due < q.pending[k].due
         || (q.pending[m].due == q.pending[k].due && q.pending[m].order < q.pending[k].order) {
        k := m;
      }
    }
  }

  function Bit(b: bool): int { if b then 1 else 0 }

  /** Drops at every event that does not move the clock. */
  function Rank(c: Timeouts, s: State): int {
    var p := s.timers.pending;
    var timers := Bit(TotalTimer in p) + Bit(PhaseTimer in p);
    match s.stage
    case Working(k, outer, inner) =>
      10 * (|c.phases| - k) + 3 * Bit(outer.Racing?) + 3 * Bit(inner.Racing?) + timers
    case CleaningUp(race) => 1 + 3 * Bit(race.Racing?) + Bit(TotalTimer in p) + Bit(s.phaseActive)
    case Settled => 0
  }

  function RunBound(c: Timeouts): int { 10 * |c.phases| + 8 + c.PlanDeadline() }

  lemma FireDescends(c: Timeouts, s: State, timer: TimerKind)
    requires c.Headroom() && Inv(c, s) && Enabled(s, Fire(timer))
    ensures Rank(c, FireTimer(c, s, timer)) < Rank(c, s) && FireTimer(c, s, timer).now == s.now
  {
  }

  lemma StepDescends(c: Timeouts, s: State, e: Event)
    requires c.Headroom() && Inv(c, s) && Enabled(s, e)
    ensures Rank(c, Step(c, s, e)) - Step(c, s, e).now < Rank(c, s) - s.now
  {
    if e.Fire? {
      FireDescends(c, s, e.timer);
    }
  }

  /** No run is longer than a bound fixed by the timeouts. */
  lemma {:induction false} RunsAreBounded(c: Timeouts, es: seq<Event>)
    requires c.Headroom() && Exec(c, es).Some?
    ensures |es| + Rank(c, Exec(c, es).value) - Exec(c, es).value.now <= 10 * |c.phases| + 8
    ensures |es| <= RunBound(c)
  {
    ExecInv(c, es);
    if es != [] {
      var front := es[..|es| - 1];
      RunsAreBounded(c, front);
      ExecInv(c, front);
      StepDescends(c, Exec(c, front).value, es[|es| - 1]);
    }
  }
}
