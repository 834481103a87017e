/** Which timeouts, passing the headroom guard, have a run in which the cleanup
    overlaps a phase operation: an exact test, and what it says of the shipped values. */
module AcceptanceOverlapWindow {
  import opened Options
  import opened AcceptanceDeadlineBound
  import opened AcceptanceDeadlines
  import opened AcceptanceTheorems
  import opened AcceptanceCleanupSafety

  ghost predicate CanOverlap(c: Timeouts) {
    exists es :: Exec(c, es).Some? && Overlaps(Exec(c, es).value)
  }

  /** Phase k can still be draining when the work deadline fires: it can start early
      enough to miss its own deadline first, and late enough for its drain window to
      reach the work deadline. */
  predicate OverlapWindow(c: Timeouts, k: nat) {
    && PhasesValid(c, k + 1)
    && c.phases[k] < c.work <= PhaseSum(c, k + 1) + c.workDrain
  }

  // ---------- no window, no overlap ----------

  lemma {:induction false} OverlapNeedsWindow(c: Timeouts, es: seq<Event>)
    requires c.Headroom() && c.WorkValid() && c.CleanupValid()
    requires Exec(c, es).Some? && Overlaps(Exec(c, es).value)
    ensures exists k :: OverlapWindow(c, k)
  {
    if es == [] {
      StartsQuiet(c);
    } else {
      var front := es[..|es| - 1];
      var s := Exec(c, front).value;
      ExecInv(c, front);
      if Overlaps(s) {
        OverlapNeedsWindow(c, front);
      } else {
        OverlapStep(c, s, es[|es| - 1]);
        assert OverlapWindow(c, s.stage.phase);
      }
    }
  }

  predicate Harmless(c: Timeouts, s: State) {
    && (!c.CleanupValid() ==> s.cleanupCall == NotCalled && !s.stage.CleaningUp?)
    && (!c.WorkValid() ==> !s.phaseActive && !s.stage.Working? && !Overlaps(s))
  }

  lemma HarmlessStep(c: Timeouts, s: State, e: Event)
    requires !(c.WorkValid() && c.CleanupValid()) && Harmless(c, s) && Enabled(s, e)
    ensures Harmless(c, Step(c, s, e))
  {
  }

  lemma {:induction false} RejectedTimeoutsAreHarmless(c: Timeouts, es: seq<Event>)
    requires !(c.WorkValid() && c.CleanupValid()) && Exec(c, es).Some?
    ensures Harmless(c, Exec(c, es).value) && !Overlaps(Exec(c, es).value)
  {
    if es != [] {
      var front := es[..|es| - 1];
      RejectedTimeoutsAreHarmless(c, front);
      HarmlessStep(c, Exec(c, front).value, es[|es| - 1]);
    }
  }

  // ---------- a window gives a run ----------

  /** One more event of a run, with the invariant after it. */
  lemma Next(c: Timeouts, es: seq<Event>, e: Event) returns (longer: seq<Event>)
    requires c.Headroom() && Exec(c, es).Some? && Enabled(Exec(c, es).value, e)
    ensures longer == es + [e]
    ensures Exec(c, longer) == Some(Step(c, Exec(c, es).value, e))
    ensures Inv(c, Exec(c, longer).value)
  {
    longer := es + [e];
    Extend(c, es, e);
    ExecInv(c, longer);
  }

  /** A phase that begins early enough can miss its deadline before the work does. */
  lemma PhaseCanMissItsDeadline(c: Timeouts, es: seq<Event>, k: nat, begin: int)
    returns (late: seq<Event>)
    requires c.Headroom() && Begins(c, es, k, begin)
    requires k < |c.phases| && begin + c.phases[k] < c.work
    ensures Exec(c, late).Some? && Exec(c, late).value.stage == Working(k, Racing, Draining(true))
    ensures Exec(c, late).value.phaseStart == begin
    ensures Exec(c, late).value.now == begin + c.phases[k]
  {
    var s, due := Exec(c, es).value, begin + c.phases[k];
    ExecInv(c, es);
    assert s.timers.MayAdvanceTo(due) && s.timers.IsNext(PhaseTimer);
    late := es + [Advance(due)] + [Fire(PhaseTimer)];
    Extend(c, es, Advance(due));
    Extend(c, es + [Advance(due)], Fire(PhaseTimer));
  }

  /** The work deadline then fires inside the drain window, which runs out. */
  lemma DrainingPhaseCanOverlap(c: Timeouts, late: seq<Event>, k: nat)
    requires c.Headroom() && c.CleanupValid() && Exec(c, late).Some? && k < |c.phases|
    requires Exec(c, late).value.stage == Working(k, Racing, Draining(true))
    requires var due := Exec(c, late).value.phaseStart + c.phases[k];
             Exec(c, late).value.now == due && c.work <= due + c.workDrain
    ensures CanOverlap(c)
  {
    ExecInv(c, late);
    var es := Next(c, late, Advance(c.work));
    es := Next(c, es, Fire(WorkTimer));
    LateAbortCanOverlap(c, es);
  }

  /** The drain window of a phase that was draining at the work deadline can run out. */
  lemma LateAbortCanOverlap(c: Timeouts, es: seq<Event>)
    requires c.Headroom() && c.CleanupValid() && Exec(c, es).Some? && Exec(c, es).value.now == c.work
    requires LateAborted(Exec(c, es).value) && !Overlaps(Exec(c, es).value)
    requires Exec(c, es).value.stage.outer == Draining(true) && PhaseDrainTimer in Exec(c, es).value.timers.pending
    requires c.work <= Exec(c, es).value.timers.pending[PhaseDrainTimer].due <= c.work + c.workDrain
    ensures CanOverlap(c)
  {
    ExecInv(c, es);
    var end := Exec(c, es).value.timers.pending[PhaseDrainTimer].due;
    var last := es;
    if c.work < end {
      last := Next(c, es, Advance(end));
    }
    var s := Exec(c, last).value;
    last := Next(c, last, Fire(PhaseDrainTimer));
    OverlapStep(c, s, Fire(PhaseDrainTimer));
  }

  lemma WindowGivesOverlap(c: Timeouts, k: nat)
    requires c.Headroom() && c.WorkValid() && c.CleanupValid() && OverlapWindow(c, k)
    ensures CanOverlap(c)
  {
    var latest := c.work - c.phases[k] - c.workDrain;
    var begin := if latest > 0 then latest else 0;
    PhaseSumGrows(c, 0, k);
    var es := PhaseCanBegin(c, k, begin);
    var late := PhaseCanMissItsDeadline(c, es, k, begin);
    DrainingPhaseCanOverlap(c, late, k);
  }

  /** For all timeouts that pass the guard: some run calls the cleanup while a phase
      operation is active if and only if the four deadlines are accepted and some phase
      has an overlap window. */
  lemma CleanupCanOverlapIff(c: Timeouts)
    requires c.Admitted()
    ensures CanOverlap(c) <==>
              c.WorkValid() && c.CleanupValid() && exists k :: OverlapWindow(c, k)
  {
    if c.WorkValid() && c.CleanupValid() {
      AdmittedIsHeadroom(c);
      if CanOverlap(c) {
        var es :| Exec(c, es).Some? && Overlaps(Exec(c, es).value);
        OverlapNeedsWindow(c, es);
      }
      if k: nat :| OverlapWindow(c, k) {
        WindowGivesOverlap(c, k);
      }
    } else {
      forall es | Exec(c, es).Some?
        ensures !Overlaps(Exec(c, es).value)
      {
        RejectedTimeoutsAreHarmless(c, es);
      }
    }
  }

  // ---------- the shipped timeouts ----------

  const SHIPPED: Timeouts :=
    Timeouts(960_000, 90_000, 180_000, 60_000, 30_000, 1_350_000,
             [90_000, 180_000, 240_000, 480_000, 300_000])

  /** The shipped timeouts pass the guard, yet the last two
      phases, and only those, can be draining when the work deadline fires. */
  lemma ShippedTimeoutsCanOverlap()
    ensures SHIPPED.Admitted() && SHIPPED.Headroom()
    ensures forall k: nat :: OverlapWindow(SHIPPED, k) <==> k == 3 || k == 4
    ensures CanOverlap(SHIPPED)
  {
    assert PhaseSum(SHIPPED, 1) == 90_000;
    assert PhaseSum(SHIPPED, 2) == 270_000;
    assert PhaseSum(SHIPPED, 3) == 510_000;
    assert PhaseSum(SHIPPED, 4) == 990_000;
    assert PhaseSum(SHIPPED, 5) == 1_290_000;
    assert OverlapWindow(SHIPPED, 3);
    CleanupCanOverlapIff(SHIPPED);
  }
}
