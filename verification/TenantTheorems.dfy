/** When two instances can provision the same organization at once, and what a cached success
    is worth, with a lock server that can fail at any request and forget at any time. */
module TenantTheorems {
  import opened Numbers
  import opened Options
  import opened ServerReplies
  import opened TenantProvisioning

  function Before(es: seq<Event>, i: nat): Option<State>
    requires i <= |es|
  {
    Exec(es[..i])
  }

  lemma Extend(es: seq<Event>, e: Event) returns (longer: seq<Event>)
    requires Exec(es).Some? && Enabled(Exec(es).value, e)
    ensures longer == es + [e] && Exec(longer) == Some(Step(Exec(es).value, e))
  {
    longer := es + [e];
    assert longer[..|es|] == es;
  }

  // ---------- how a guard is missed or lost ----------

  /** The request for the lock fails without setting it, and the attempt goes on. */
  ghost predicate LetThroughAt(es: seq<Event>, i: nat, a: AttemptId) {
    && i < |es| && es[i].LockTried? && es[i].attempt == a && !es[i].reply.Ok()
    && Before(es, i).Some? && a in Before(es, i).value.attempts
    && (!es[i].reply.TookEffect() || Before(es, i).value.attempts[a].key in Before(es, i).value.locks)
  }

  /** The lock of the attempt expires while it is still at work. */
  ghost predicate OutlivesAt(es: seq<Event>, i: nat, a: AttemptId) {
    && i < |es| && es[i].LockExpires? && Before(es, i).Some?
    && es[i].org in Before(es, i).value.locks && Before(es, i).value.locks[es[i].org] == a
    && AtWork(Before(es, i).value, a)
  }

  ghost predicate Unguarded(es: seq<Event>, a: AttemptId) {
    exists i :: LetThroughAt(es, i, a) || OutlivesAt(es, i, a)
  }

  lemma UnguardedStays(es: seq<Event>, a: AttemptId)
    requires es != [] && Unguarded(es[..|es| - 1], a)
    ensures Unguarded(es, a)
  {
    var front := es[..|es| - 1];
    var i: nat :| LetThroughAt(front, i, a) || OutlivesAt(front, i, a);
    assert front[..i] == es[..i] && front[i] == es[i];
    assert LetThroughAt(es, i, a) || OutlivesAt(es, i, a);
  }

  /** How an attempt comes to be at work without holding a lock. */
  lemma GuardIsLostSo(s: State, e: Event, a: AttemptId)
    requires LocksInv(s) && Enabled(s, e) && AtWork(Step(s, e), a)
    ensures || Step(s, e).attempts[a].guard.Holding?
            || (AtWork(s, a) && !s.attempts[a].guard.Holding?)
            || (&& e.LockTried? && e.attempt == a && !e.reply.Ok()
                && (!e.reply.TookEffect() || s.attempts[a].key in s.locks))
            || (e.LockExpires? && s.locks[e.org] == a && AtWork(s, a))
  {
    StepFramed(s, e);
    GuardStep(s, e, a);
    if a in s.attempts {
      assert GuardInv(s, a);
    }
  }

  /** An attempt at work holds the lock, or it was let through without one or outlived it. */
  lemma {:induction false} AtWorkHoldsOrUnguarded(es: seq<Event>, a: AttemptId)
    requires Exec(es).Some? && AtWork(Exec(es).value, a)
    ensures Exec(es).value.attempts[a].guard.Holding? || Unguarded(es, a)
  {
    var n := |es| - 1;
    var front, e := es[..n], es[n];
    var s := Exec(front).value;
    ExecInv(front);
    if !Exec(es).value.attempts[a].guard.Holding? {
      GuardIsLostSo(s, e, a);
      if AtWork(s, a) && !s.attempts[a].guard.Holding? {
        AtWorkHoldsOrUnguarded(front, a);
        UnguardedStays(es, a);
      } else {
        assert LetThroughAt(es, n, a) || OutlivesAt(es, n, a);
      }
    }
  }

  /** Two attempts of any instances at work for one organization at once: at least one was let
      through without the lock, or outlived it. */
  lemma TwoAtWorkNeedAGap(es: seq<Event>, a: AttemptId, b: AttemptId)
    requires Exec(es).Some? && AtWork(Exec(es).value, a) && AtWork(Exec(es).value, b) && a != b
    requires Exec(es).value.attempts[a].key == Exec(es).value.attempts[b].key
    ensures Unguarded(es, a) || Unguarded(es, b)
  {
    AtWorkHoldsOrUnguarded(es, a);
    AtWorkHoldsOrUnguarded(es, b);
    ExecInv(es);
    assert GuardInv(Exec(es).value, a) && GuardInv(Exec(es).value, b);
  }

  /** So in every run in which neither happens, across all instances at most one call that
      creates a tenant is in flight for an organization. */
  lemma OneEnsureInFlight(es: seq<Event>, a: AttemptId, b: AttemptId)
    requires Exec(es).Some? && forall c :: !Unguarded(es, c)
    requires var s := Exec(es).value;
             a in s.attempts && b in s.attempts && s.attempts[a].key == s.attempts[b].key
             && s.attempts[a].stage.Ensuring? && s.attempts[b].stage.Ensuring?
    ensures a == b
  {
    if a != b {
      TwoAtWorkNeedAGap(es, a, b);
    }
  }

  /** Only requests that succeed follow in the longer run. */
  predicate GoesOnSoundly(es: seq<Event>, longer: seq<Event>) {
    && es <= longer
    && forall i :: |es| <= i < |longer| ==>
         || longer[i].Request?
         || (longer[i].MarkerRead? && longer[i].reply.Ok())
         || (longer[i].LockTried? && longer[i].reply.Ok())
  }

  /** And such a gap is enough: where an attempt is in flight with no lock standing, and the
      tenant is not marked as done, a new instance can start a second call although the lock
      server works again. */
  lemma GapLetsSecondIn(es: seq<Event>, a: AttemptId) returns (longer: seq<Event>, b: AttemptId)
    requires Exec(es).Some? && a in Exec(es).value.attempts && Exec(es).value.attempts[a].stage.Ensuring?
    requires var s := Exec(es).value; s.attempts[a].key !in s.locks && s.attempts[a].key !in s.done
    ensures GoesOnSoundly(es, longer) && Exec(longer).Some? && a != b
    ensures var s := Exec(longer).value;
            && a in s.attempts && b in s.attempts && s.attempts[a].key == s.attempts[b].key
            && s.attempts[a].stage.Ensuring? && s.attempts[b].stage.Ensuring?
  {
    var s := Exec(es).value;
    var key := s.attempts[a].key;
    var i := FreshNat(s.maps.Keys);
    b := FreshNat(s.attempts.Keys);
    longer := Extend(es, Request(i, key, b));
    longer := Extend(longer, MarkerRead(b, Done));
    longer := Extend(longer, LockTried(b, Done));
  }

  /** The lock server is down for two requests: both attempts go ahead. */
  lemma OutageLetsTwoIn() returns (es: seq<Event>)
    ensures Exec(es).Some? && 0 in Exec(es).value.attempts && 1 in Exec(es).value.attempts
    ensures Exec(es).value.attempts[0] == Attempt(0, 7, Ensuring, Lockless)
    ensures Exec(es).value.attempts[1] == Attempt(1, 7, Ensuring, Lockless)
  {
    es := Extend([], Request(0, 7, 0));
    es := Extend(es, MarkerRead(0, NotDone));
    es := Extend(es, LockTried(0, NotDone));
    es := Extend(es, Request(1, 7, 1));
    es := Extend(es, MarkerRead(1, NotDone));
    es := Extend(es, LockTried(1, NotDone));
  }

  const FIRST_AT_WORK := State(map[0 := map[7 := Pending(0)]], map[0 := Attempt(0, 7, Ensuring, Holding)],
                               {}, map[7 := 0], {}, {})

  lemma FirstTakesLock() returns (es: seq<Event>)
    ensures Exec(es) == Some(FIRST_AT_WORK)
  {
    es := Extend([], Request(0, 7, 0));
    es := Extend(es, MarkerRead(0, Done));
    es := Extend(es, LockTried(0, Done));
    var s := Exec(es).value;
    assert s.maps == FIRST_AT_WORK.maps && s.attempts == FIRST_AT_WORK.attempts && s.locks == FIRST_AT_WORK.locks;
  }

  /** Every request succeeds, but the first call takes longer than its lock lives. */
  lemma ExpiryLetsTwoIn() returns (es: seq<Event>)
    ensures Exec(es).Some? && 0 in Exec(es).value.attempts && 1 in Exec(es).value.attempts
    ensures Exec(es).value.attempts[0] == Attempt(0, 7, Ensuring, Expired)
    ensures Exec(es).value.attempts[1] == Attempt(1, 7, Ensuring, Holding)
  {
    es := FirstTakesLock();
    es := Extend(es, LockExpires(7));
    es := Extend(es, Request(1, 7, 1));
    es := Extend(es, MarkerRead(1, Done));
    es := Extend(es, LockTried(1, Done));
  }

  // ---------- locks and attempts ----------

  /** The attempt asks for its lock to be deleted, in vain. */
  predicate ReleaseFails(es: seq<Event>, a: AttemptId) {
    LockReleased(a, NotDone) in es
  }

  lemma HeldStep(s: State, e: Event, a: AttemptId)
    requires LocksInv(s) && Enabled(s, e) && a in Step(s, e).attempts
    requires Step(s, e).attempts[a].guard.Holding? && !AtWork(Step(s, e), a)
    ensures a in s.attempts
    ensures (s.attempts[a].guard.Holding? && !AtWork(s, a)) || e == LockReleased(a, NotDone)
  {
    StepFramed(s, e);
    if a in s.attempts {
      assert GuardInv(s, a);
    }
  }

  /** A lock that outlasts the attempt that set it is there because its release failed. */
  lemma {:induction false} HeldAfterWork(es: seq<Event>, a: AttemptId)
    requires Exec(es).Some? && a in Exec(es).value.attempts
    requires Exec(es).value.attempts[a].guard.Holding? && !AtWork(Exec(es).value, a)
    ensures ReleaseFails(es, a)
  {
    var n := |es| - 1;
    var front := es[..n];
    ExecInv(front);
    HeldStep(Exec(front).value, es[n], a);
    assert es == front + [es[n]];
    if es[n] != LockReleased(a, NotDone) {
      HeldAfterWork(front, a);
    }
  }

  /** The lock of an organization stands exactly while an attempt that set it is at work with
      it, or because such an attempt failed to release it. */
  lemma LockHeldIffOwned(es: seq<Event>, key: OrgKey)
    requires Exec(es).Some?
    ensures var s := Exec(es).value;
            key in s.locks <==>
              exists a :: a in s.attempts && s.attempts[a].key == key && s.attempts[a].guard.Holding?
                          && (AtWork(s, a) || ReleaseFails(es, a))
  {
    ExecInv(es);
    var s := Exec(es).value;
    if key in s.locks {
      var a := s.locks[key];
      assert LockInv(s, key) && GuardInv(s, a);
      if !AtWork(s, a) {
        HeldAfterWork(es, a);
      }
    }
    forall a | a in s.attempts && s.attempts[a].key == key && s.attempts[a].guard.Holding?
      ensures key in s.locks
    {
      assert GuardInv(s, a);
    }
  }

  /** A release never deletes the lock of another attempt that is still at work. */
  lemma ReleaseSparesOthers(es: seq<Event>, a: AttemptId, reply: Reply, b: AttemptId)
    requires Exec(es).Some? && Enabled(Exec(es).value, LockReleased(a, reply)) && a != b
    requires AtWork(Exec(es).value, b) && Exec(es).value.attempts[b].guard.Holding?
    ensures var s, t := Exec(es).value, Step(Exec(es).value, LockReleased(a, reply));
            s.attempts[b].key in t.locks && t.locks[s.attempts[b].key] == b
  {
    ExecInv(es);
    var s := Exec(es).value;
    assert GuardInv(s, b);
    if s.attempts[a].key == s.attempts[b].key && s.attempts[a].instance == s.attempts[b].instance {
      SameInstanceIsSame(s, a, b);
    }
  }

  /** Each instance has at most one open attempt per organization. */
  lemma OneOpenAttempt(es: seq<Event>, a: AttemptId, b: AttemptId)
    requires Exec(es).Some? && Open(Exec(es).value, a) && Open(Exec(es).value, b)
    requires var s := Exec(es).value;
             s.attempts[a].key == s.attempts[b].key && s.attempts[a].instance == s.attempts[b].instance
    ensures a == b
  {
    ExecInv(es);
    SameInstanceIsSame(Exec(es).value, a, b);
  }

  // ---------- how attempts end ----------

  /** The outcome an event gives to the attempt it is about: a marker that is read and stands, a
      lock that is found taken, a call that fails, or the attempt to mark a success. */
  function Decision(s: State, e: Event): Option<Outcome>
    requires Enabled(s, e)
  {
    match e
    case MarkerRead(a, reply) =>
      if reply == Done && s.attempts[a].key in s.done then Some(Succeeded(SawDoneMarker)) else None
    case LockTried(a, reply) =>
      if reply == Done && s.attempts[a].key in s.locks then Some(Succeeded(LostLock)) else None
    case EnsureReturned(a, Some(false)) => Some(Refused)
    case EnsureReturned(a, None) => Some(Threw)
    case MarkerWritten(a, reply) => Some(Succeeded(ProvisionedItself(reply != NotDone)))
    case _ => None
  }

  predicate Decided(s: State, a: AttemptId, outcome: Outcome) {
    a in s.attempts && HasOutcome(s.attempts[a].stage) && s.attempts[a].stage.outcome == outcome
  }

  predicate DecidesNow(s: State, e: Event, a: AttemptId, outcome: Outcome) {
    Enabled(s, e) && OfAttempt(e) && e.attempt == a && Decision(s, e) == Some(outcome)
  }

  ghost predicate DecidedAt(es: seq<Event>, i: nat, a: AttemptId, outcome: Outcome) {
    i < |es| && Before(es, i).Some? && DecidesNow(Before(es, i).value, es[i], a, outcome)
  }

  ghost predicate EverDecided(es: seq<Event>, a: AttemptId, outcome: Outcome) {
    exists i :: DecidedAt(es, i, a, outcome)
  }

  lemma DecisionStep(s: State, e: Event, a: AttemptId, outcome: Outcome)
    requires LocksInv(s) && Enabled(s, e)
    ensures Decided(Step(s, e), a, outcome) <==> Decided(s, a, outcome) || DecidesNow(s, e, a, outcome)
  {
    hide GuardInv, WaitInv;
    if e.LockReleased? && SameInstance(s, e.attempt) {
      assert LockInv(s, s.attempts[e.attempt].key);
    }
  }

  lemma DecidedFront(es: seq<Event>, i: nat, a: AttemptId, outcome: Outcome)
    requires i < |es| - 1
    ensures DecidedAt(es, i, a, outcome) <==> DecidedAt(es[..|es| - 1], i, a, outcome)
  {
    assert es[..|es| - 1][..i] == es[..i];
  }

  lemma DecidedSnoc(es: seq<Event>, a: AttemptId, outcome: Outcome)
    requires es != [] && Exec(es).Some?
    ensures var n := |es| - 1;
            EverDecided(es, a, outcome) <==>
              EverDecided(es[..n], a, outcome) || DecidesNow(Exec(es[..n]).value, es[n], a, outcome)
  {
    hide Step, Enabled, DecidesNow;
    var n := |es| - 1;
    assert DecidedAt(es, n, a, outcome) <==> DecidesNow(Exec(es[..n]).value, es[n], a, outcome);
    hide Exec;
    if EverDecided(es, a, outcome) {
      var i: nat :| DecidedAt(es, i, a, outcome);
      if i < n {
        DecidedFront(es, i, a, outcome);
      }
    }
    if EverDecided(es[..n], a, outcome) {
      var i: nat :| DecidedAt(es[..n], i, a, outcome);
      DecidedFront(es, i, a, outcome);
    }
  }

  /** An attempt has an outcome exactly when an event gave it that outcome: it ends without a
      call of its own exactly when it reads a standing marker or finds the lock taken. */
  lemma {:induction false} OutcomeIff(es: seq<Event>, a: AttemptId, outcome: Outcome)
    requires Exec(es).Some?
    ensures Decided(Exec(es).value, a, outcome) <==> EverDecided(es, a, outcome)
  {
    if es == [] {
      assert forall i: nat :: !DecidedAt(es, i, a, outcome);
    } else {
      var front, e := es[..|es| - 1], es[|es| - 1];
      var s := Exec(front).value;
      ExecInv(front);
      OutcomeIff(front, a, outcome);
      DecidedSnoc(es, a, outcome);
      DecisionStep(s, e, a, outcome);
    }
  }

  /** Once an attempt has read a standing marker, it makes no call however the run goes on. */
  lemma MarkerSparesTheCall(es: seq<Event>, i: nat, a: AttemptId)
    requires Exec(es).Some? && DecidedAt(es, i, a, Succeeded(SawDoneMarker))
    ensures Decided(Exec(es).value, a, Succeeded(SawDoneMarker))
    ensures a in Exec(es).value.attempts && !Exec(es).value.attempts[a].stage.Ensuring?
  {
    OutcomeIff(es, a, Succeeded(SawDoneMarker));
  }

  // ---------- what success means ----------

  ghost predicate OfOrg(es: seq<Event>, i: nat, key: OrgKey) {
    && i < |es| && OfAttempt(es[i]) && Before(es, i).Some? && es[i].attempt in Before(es, i).value.attempts
    && Before(es, i).value.attempts[es[i].attempt].key == key
  }

  /** A call that creates the tenant of this organization returned true. */
  ghost predicate EnsuredAt(es: seq<Event>, i: nat, key: OrgKey) {
    OfOrg(es, i, key) && es[i].EnsureReturned? && es[i].result == Some(true)
  }

  /** Such a call returned false or threw. */
  ghost predicate EnsureFailsAt(es: seq<Event>, i: nat, key: OrgKey) {
    OfOrg(es, i, key) && es[i].EnsureReturned? && es[i].result != Some(true)
  }

  /** The done marker of this organization was written. */
  ghost predicate MarkedAt(es: seq<Event>, i: nat, key: OrgKey) {
    OfOrg(es, i, key) && es[i].MarkerWritten? && es[i].reply.TookEffect()
  }

  lemma OfOrgStays(es: seq<Event>, i: nat, key: OrgKey)
    requires es != [] && OfOrg(es[..|es| - 1], i, key)
    ensures OfOrg(es, i, key) && es[i] == es[..|es| - 1][i]
  {
    assert es[..|es| - 1][..i] == es[..i];
  }

  lemma {:induction false} EnsuredHasEvent(es: seq<Event>, key: OrgKey)
    requires Exec(es).Some? && key in Exec(es).value.ensured
    ensures exists i :: EnsuredAt(es, i, key)
  {
    var n := |es| - 1;
    var front := es[..n];
    if key in Exec(front).value.ensured {
      EnsuredHasEvent(front, key);
      var i: nat :| EnsuredAt(front, i, key);
      OfOrgStays(es, i, key);
      assert EnsuredAt(es, i, key);
    } else {
      assert EnsuredAt(es, n, key);
    }
  }

  lemma MarkedStep(s: State, e: Event, key: OrgKey)
    requires Enabled(s, e) && key in Step(s, e).marked
    ensures key in s.marked ||
            (e.MarkerWritten? && e.reply.TookEffect() && s.attempts[e.attempt].key == key && key in Step(s, e).done)
    ensures key in s.done ==> key in Step(s, e).done || e == MarkerExpires(key)
  {
  }

  lemma {:induction false} MarkedHasEvent(es: seq<Event>, key: OrgKey)
    requires Exec(es).Some? && key in Exec(es).value.marked
    ensures exists i :: MarkedAt(es, i, key)
    ensures key in Exec(es).value.done || MarkerExpires(key) in es
  {
    var n := |es| - 1;
    var front := es[..n];
    assert es == front + [es[n]];
    MarkedStep(Exec(front).value, es[n], key);
    if key in Exec(front).value.marked {
      MarkedHasEvent(front, key);
      var i: nat :| MarkedAt(front, i, key);
      OfOrgStays(es, i, key);
      assert MarkedAt(es, i, key);
    } else {
      assert MarkedAt(es, n, key);
    }
  }

  /** An attempt that did not succeed had its call return false or throw. */
  lemma {:induction false} FailureHasEvent(es: seq<Event>, a: AttemptId)
    requires Exec(es).Some? && a in Exec(es).value.attempts
    requires var stage := Exec(es).value.attempts[a].stage; HasOutcome(stage) && !stage.outcome.Succeeded?
    ensures exists i :: EnsureFailsAt(es, i, Exec(es).value.attempts[a].key)
  {
    var n := |es| - 1;
    var front := es[..n];
    var s, key := Exec(front).value, Exec(es).value.attempts[a].key;
    StepFramed(s, es[n]);
    if HasOutcome(s.attempts[a].stage) {
      FailureHasEvent(front, a);
      var i: nat :| EnsureFailsAt(front, i, key);
      OfOrgStays(es, i, key);
      assert EnsureFailsAt(es, i, key);
    } else {
      assert EnsureFailsAt(es, n, key);
    }
  }

  /** The done marker is there only after such a call returned true. */
  lemma DoneMeansEnsured(es: seq<Event>, key: OrgKey)
    requires Exec(es).Some? && key in Exec(es).value.done
    ensures exists i :: EnsuredAt(es, i, key)
  {
    ExecInv(es);
    EnsuredHasEvent(es, key);
  }

  /** An instance that caches success lost the lock, or the tenant was created; it was also
      marked, and still is unless the marker expired, where the instance saw the marker or its
      own write of it took effect. */
  lemma CachedUnlessLost(es: seq<Event>, i: Instance, key: OrgKey)
    requires Exec(es).Some? && i in Exec(es).value.maps && key in Exec(es).value.maps[i]
    requires Exec(es).value.maps[i][key].Resolved? && Exec(es).value.maps[i][key].reason != LostLock
    ensures exists n :: EnsuredAt(es, n, key)
    ensures Exec(es).value.maps[i][key].reason != ProvisionedItself(false) ==>
              && (exists n :: MarkedAt(es, n, key))
              && (key in Exec(es).value.done || MarkerExpires(key) in es)
  {
    ExecInv(es);
    assert EntryInv(Exec(es).value, i, key);
    EnsuredHasEvent(es, key);
    if Exec(es).value.maps[i][key].reason != ProvisionedItself(false) {
      MarkedHasEvent(es, key);
    }
  }

  /** The write of the marker can fail unnoticed: the success is cached, with no marker. */
  lemma SuccessCanGoUnmarked() returns (es: seq<Event>)
    ensures Exec(es).Some? && 0 in Exec(es).value.maps && 7 in Exec(es).value.maps[0]
    ensures Exec(es).value.maps[0][7] == Resolved(ProvisionedItself(false))
    ensures 7 in Exec(es).value.ensured && 7 !in Exec(es).value.done
  {
    es := MarkerCanBeMissed();
    es := Extend(es, LockReleased(0, Done));
    es := Extend(es, Settled(0));
  }

  lemma MarkerCanBeMissed() returns (es: seq<Event>)
    ensures Exec(es).Some? && 0 in Exec(es).value.attempts
    ensures Exec(es).value.attempts[0] == Attempt(0, 7, ReleasingLock(Succeeded(ProvisionedItself(false))), Holding)
    ensures 7 in Exec(es).value.ensured && 7 !in Exec(es).value.done
    ensures Exec(es).value.maps == map[0 := map[7 := Pending(0)]] && Exec(es).value.locks == map[7 := 0]
  {
    es := FirstTakesLock();
    es := Extend(es, EnsureReturned(0, Some(true)));
    es := Extend(es, MarkerWritten(0, NotDone));
  }

  /** A success cached for losing the lock, with no tenant created and nobody at work on the
      organization, means that a call that should have created it returned false or threw. */
  lemma CachedLossMeansFailure(es: seq<Event>, i: Instance, key: OrgKey)
    requires Exec(es).Some? && i in Exec(es).value.maps && key in Exec(es).value.maps[i]
    requires Exec(es).value.maps[i][key] == Resolved(LostLock) && key !in Exec(es).value.ensured
    requires forall a <- Exec(es).value.attempts.Keys ::
               Exec(es).value.attempts[a].key == key ==> !Open(Exec(es).value, a)
    ensures exists n :: EnsureFailsAt(es, n, key)
  {
    ExecInv(es);
    var s := Exec(es).value;
    assert EntryInv(s, i, key);
    var a :| Locked(s, a, key);
    assert GuardInv(s, a) && OutcomeInv(s, a);
    FailureHasEvent(es, a);
  }

  /** Both attempts are past the lock: the first took it, the second lost it. */
  ghost predicate LostRace(s: State) {
    && s.attempts == map[0 := Attempt(0, 7, Ensuring, Holding),
                         1 := Attempt(1, 7, Settling(Succeeded(LostLock)), NoLock)]
    && s.maps == map[0 := map[7 := Pending(0)], 1 := map[7 := Pending(1)]]
    && s.locks == map[7 := 0] && s.ensured == {}
  }

  lemma LockCanBeLost() returns (es: seq<Event>)
    ensures Exec(es).Some? && LostRace(Exec(es).value)
  {
    es := FirstTakesLock();
    es := Extend(es, Request(1, 7, 1));
    es := Extend(es, MarkerRead(1, Done));
    es := Extend(es, LockTried(1, Done));
  }

  /** The first call returned false and its lock is released; both attempts are to settle. */
  ghost predicate WinnerFailed(s: State) {
    && s.attempts == map[0 := Attempt(0, 7, Settling(Refused), Deleted),
                         1 := Attempt(1, 7, Settling(Succeeded(LostLock)), NoLock)]
    && s.maps == map[0 := map[7 := Pending(0)], 1 := map[7 := Pending(1)]]
    && s.ensured == {}
  }

  lemma WinnerCanFail() returns (es: seq<Event>)
    ensures Exec(es).Some? && WinnerFailed(Exec(es).value)
  {
    es := LockCanBeLost();
    es := Extend(es, EnsureReturned(0, Some(false)));
    es := Extend(es, LockReleased(0, Done));
  }

  /** And it does happen: the winner fails and forgets, while the loser goes on reporting
      success with nothing provisioned and nobody at work. */
  lemma LoserCanCacheFailure() returns (es: seq<Event>)
    ensures Exec(es).Some? && 1 in Exec(es).value.maps && 7 in Exec(es).value.maps[1]
    ensures Exec(es).value.maps[1][7] == Resolved(LostLock) && 7 !in Exec(es).value.ensured
    ensures forall a :: !Open(Exec(es).value, a)
  {
    es := WinnerCanFail();
    es := Extend(es, Settled(0));
    es := Extend(es, Settled(1));
    assert Exec(es).value.attempts.Keys == {0, 1};
  }
}
