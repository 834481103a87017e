/** When the acceptance cleanup is called, when it is withheld, and exactly which
    runs and which timeouts let it overlap a phase operation. */
module AcceptanceCleanupSafety {
  import opened Options
  import opened AcceptanceDeadlines
  import opened AcceptanceTheorems

  predicate Overlaps(s: State) {
    s.cleanupCall == Called(true)
  }

  /** The work deadline fires at event i while a phase is already draining. */
  ghost predicate WorkDeadlineHitsDrainingPhase(c: Timeouts, es: seq<Event>, i: nat) {
    && i < |es| && es[i] == Fire(WorkTimer)
    && Before(c, es, i).Some?
    && var s := Before(c, es, i).value;
       s.stage.Working? && s.stage.outer.Racing? && s.stage.inner.Draining?
  }

  /** The drain window of the current phase runs out at event j. */
  ghost predicate PhaseDrainRunsOut(c: Timeouts, es: seq<Event>, j: nat) {
    && j < |es| && es[j] == Fire(PhaseDrainTimer)
    && Before(c, es, j).Some? && Before(c, es, j).value.stage.Working?
  }

  predicate LateAborted(s: State) {
    s.stage.Working? && s.stage.outer.Draining? && s.stage.inner == Draining(true)
  }

  /** An overlapping call comes from one kind of step only. */
  lemma OverlapStep(c: Timeouts, s: State, e: Event)
    requires c.Headroom() && Inv(c, s) && Enabled(s, e) && !Overlaps(s)
    ensures Overlaps(Step(c, s, e)) <==> c.CleanupValid() && LateAborted(s) && e == Fire(PhaseDrainTimer)
  {
  }

  lemma LateAbortStep(c: Timeouts, s: State, e: Event)
    requires c.Headroom() && Inv(c, s) && Enabled(s, e) && !LateAborted(s)
    ensures LateAborted(Step(c, s, e)) <==>
              s.stage.Working? && s.stage.outer.Racing? && s.stage.inner.Draining? && e == Fire(WorkTimer)
  {
  }

  lemma CalledIsFinal(c: Timeouts, s: State, e: Event)
    requires c.Headroom() && Inv(c, s) && Enabled(s, e)
    ensures s.cleanupCall.Called? ==> Step(c, s, e).cleanupCall == s.cleanupCall
    ensures !s.stage.Working? ==> !Step(c, s, e).stage.Working?
  {
  }

  /** Once late-aborted, a run stays so or leaves the work for good. */
  lemma LateAbortedStays(c: Timeouts, s: State, e: Event)
    requires c.Headroom() && Inv(c, s) && Enabled(s, e) && LateAborted(s)
    ensures LateAborted(Step(c, s, e)) || !Step(c, s, e).stage.Working?
  {
  }

  lemma {:induction false} LateAbortHasACause(c: Timeouts, es: seq<Event>)
    requires c.Headroom() && Exec(c, es).Some? && LateAborted(Exec(c, es).value)
    ensures exists i :: WorkDeadlineHitsDrainingPhase(c, es, i)
  {
    ExecInv(c, es);
    if es != [] {
      var n := |es| - 1;
      var front := es[..n];
      ExecInv(c, front);
      if LateAborted(Exec(c, front).value) {
        LateAbortHasACause(c, front);
        var i: nat :| WorkDeadlineHitsDrainingPhase(c, front, i);
        assert front[..i] == es[..i];
        assert WorkDeadlineHitsDrainingPhase(c, es, i);
      } else {
        LateAbortStep(c, Exec(c, front).value, es[n]);
        assert WorkDeadlineHitsDrainingPhase(c, es, n);
      }
    }
  }

  lemma {:induction false} AfterLateAbort(c: Timeouts, es: seq<Event>, i: nat)
    requires c.Headroom() && Exec(c, es).Some? && WorkDeadlineHitsDrainingPhase(c, es, i)
    ensures LateAborted(Exec(c, es).value) || !Exec(c, es).value.stage.Working?
  {
    var n := |es| - 1;
    var front := es[..n];
    ExecInv(c, front);
    if i == n {
      LateAbortStep(c, Exec(c, front).value, es[n]);
    } else {
      assert front[..i] == es[..i];
      AfterLateAbort(c, front, i);
      if LateAborted(Exec(c, front).value) {
        LateAbortedStays(c, Exec(c, front).value, es[n]);
      } else {
        CalledIsFinal(c, Exec(c, front).value, es[n]);
      }
    }
  }

  ghost predicate OverlapCause(c: Timeouts, es: seq<Event>, i: nat, j: nat) {
    i < j && WorkDeadlineHitsDrainingPhase(c, es, i) && PhaseDrainRunsOut(c, es, j)
  }

  /** The cleanup operation is called while a phase operation is still active exactly in
      the runs where the work deadline fired on an already draining phase whose drain
      window then ran out. */
  lemma {:induction false} CleanupOverlapsIff(c: Timeouts, es: seq<Event>)
    requires c.Headroom() && c.CleanupValid() && Exec(c, es).Some?
    ensures Overlaps(Exec(c, es).value) <==> exists i, j :: OverlapCause(c, es, i, j)
  {
    if es == [] {
      StartInv(c);
      StartsQuiet(c);
    } else {
      var n := |es| - 1;
      var front := es[..n];
      var s := Exec(c, front).value;
      ExecInv(c, front);
      CleanupOverlapsIff(c, front);
      if Overlaps(s) {
        CalledIsFinal(c, s, es[n]);
        var i: nat, j: nat :| OverlapCause(c, front, i, j);
        assert front[..i] == es[..i] && front[..j] == es[..j];
        assert OverlapCause(c, es, i, j);
      } else {
        OverlapStep(c, s, es[n]);
        if Overlaps(Exec(c, es).value) {
          LateAbortHasACause(c, front);
          var i: nat :| WorkDeadlineHitsDrainingPhase(c, front, i);
          assert front[..i] == es[..i];
          assert OverlapCause(c, es, i, n);
        } else {
          forall i: nat, j: nat | OverlapCause(c, es, i, j)
            ensures false
          {
            assert front[..i] == es[..i];
            if j < n {
              assert front[..j] == es[..j];
              assert OverlapCause(c, front, i, j);
            } else {
              AfterLateAbort(c, front, i);
            }
          }
        }
      }
    }
  }

  lemma StartsQuiet(c: Timeouts)
    requires c.Headroom()
    ensures !Overlaps(Start(c)) && !LateAborted(Start(c))
  {
  }

  /** In every run where no phase is draining when the work deadline fires, the cleanup
      is called only after every phase operation that was started has settled. */
  lemma CleanupWaitsForPhases(c: Timeouts, es: seq<Event>)
    requires c.Headroom() && c.CleanupValid() && Exec(c, es).Some?
    requires forall i :: !WorkDeadlineHitsDrainingPhase(c, es, i)
    ensures Exec(c, es).value.cleanupCall.Called? ==> !Exec(c, es).value.cleanupCall.phaseStillActive
  {
    CleanupOverlapsIff(c, es);
  }

  // ---------- withheld cleanup ----------

  /** Cleanup is withheld only while a phase operation is really still active, or when a
      phase rejected with a drain error of its own; and it is withheld or called, never both. */
  lemma {:induction false} WithheldOnlyForCause(c: Timeouts, es: seq<Event>)
    requires c.Headroom() && Exec(c, es).Some?
    ensures var s := Exec(c, es).value;
            s.cleanupFailure == Some(CleanupSuppressed) ==>
              && s.cleanupCall == NotCalled
              && (s.phaseActive || PhaseSettles(Rejected(true)) in es)
  {
    ExecInv(c, es);
    if es != [] {
      var front := es[..|es| - 1];
      WithheldOnlyForCause(c, front);
      ExecInv(c, front);
      WithheldStep(c, Exec(c, front).value, es[|es| - 1]);
    }
  }

  lemma WithheldFire(c: Timeouts, s: State, timer: TimerKind)
    requires c.Headroom() && Inv(c, s) && Enabled(s, Fire(timer))
    ensures var t := FireTimer(c, s, timer);
            t.cleanupFailure == Some(CleanupSuppressed) ==> t.cleanupCall == NotCalled && t.phaseActive
  {
  }

  lemma WithheldStep(c: Timeouts, s: State, e: Event)
    requires c.Headroom() && Inv(c, s) && Enabled(s, e)
    ensures Step(c, s, e).cleanupFailure == Some(CleanupSuppressed) ==>
              && Step(c, s, e).cleanupCall == NotCalled
              && (Step(c, s, e).phaseActive || e == PhaseSettles(Rejected(true)))
  {
    if e.Fire? {
      WithheldFire(c, s, e.timer);
    }
  }
}
