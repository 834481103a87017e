/** Tenant provisioning by many controller instances: a promise map in each, and a done marker
    and a lock per organization on a shared server that can fail and forget. */
module TenantProvisioning {
  import opened Options
  import opened ServerReplies

  type Instance = nat

  type OrgKey = nat

  type AttemptId = nat

  /** Why an attempt resolved to true; its own success may leave no marker. */
  datatype Reason = SawDoneMarker | LostLock | ProvisionedItself(marked: bool)

  datatype Outcome = Succeeded(reason: Reason) | Refused | Threw

  /** An entry of the promise map: a pending attempt, or a resolved one. */
  datatype Entry = Pending(attempt: AttemptId) | Resolved(reason: Reason)

  type PromiseMap = map<OrgKey, Entry>

  // ---------- one instance ----------

  /** A request starts an attempt unless the map has an entry for the organization. */
  function AfterRequest(orgs: PromiseMap, key: OrgKey, id: AttemptId): PromiseMap {
    if key in orgs then orgs else orgs[key := Pending(id)]
  }

  /** A settled attempt stays in the map only when it succeeded. */
  function AfterSettling(orgs: PromiseMap, key: OrgKey, outcome: Outcome): PromiseMap {
    if outcome.Succeeded? then orgs[key := Resolved(outcome.reason)] else orgs - {key}
  }

  class AppController {
    var provisioningOrgs: PromiseMap

    constructor ()
      ensures provisioningOrgs == map[]
    {
      provisioningOrgs := map[];
    }

    /** Returns whether an attempt was started. */
    method ValidateAuth(key: OrgKey, id: AttemptId) returns (started: bool)
      modifies this
      ensures provisioningOrgs == AfterRequest(old(provisioningOrgs), key, id)
      ensures started <==> key !in old(provisioningOrgs)
    {
      started := key !in provisioningOrgs;
      if started {
        provisioningOrgs := provisioningOrgs[key := Pending(id)];
      }
    }

    method OnSettled(key: OrgKey, outcome: Outcome)
      requires key in provisioningOrgs
      modifies this
      ensures provisioningOrgs == AfterSettling(old(provisioningOrgs), key, outcome)
    {
      if outcome.Succeeded? {
        provisioningOrgs := provisioningOrgs[key := Resolved(outcome.reason)];
      } else {
        provisioningOrgs := provisioningOrgs - {key};
      }
    }
  }

  // ---------- all instances ----------

  datatype Stage =
    | CheckingMarker
    | TakingLock
    | Ensuring
    | Marking
    | ReleasingLock(outcome: Outcome)
    | Settling(outcome: Outcome)
    | Over(outcome: Outcome)

  /** What became of the lock of an attempt: it may have been let through without one, its
      lock may stand, have expired, or have been deleted. */
  datatype Guard = NoLock | Lockless | Holding | Expired | Deleted

  datatype Attempt = Attempt(instance: Instance, key: OrgKey, stage: Stage, guard: Guard)

  /** The lock value names the instance; which of its attempts set it is kept beside. The
      organizations that ever had a tenant created, or a marker written, are history. */
  datatype State = State(
    maps: map<Instance, PromiseMap>,
    attempts: map<AttemptId, Attempt>,
    done: set<OrgKey>,
    locks: map<OrgKey, AttemptId>,
    ensured: set<OrgKey>,
    marked: set<OrgKey>
  )

  /** Each request to the lock server has its reply; locks and markers expire at any time. */
  datatype Event =
    | Request(instance: Instance, key: OrgKey, id: AttemptId)
    | MarkerRead(attempt: AttemptId, reply: Reply)
    | LockTried(attempt: AttemptId, reply: Reply)
    | EnsureReturned(attempt: AttemptId, result: Option<bool>)
    | MarkerWritten(attempt: AttemptId, reply: Reply)
    | LockReleased(attempt: AttemptId, reply: Reply)
    | Settled(attempt: AttemptId)
    | LockExpires(org: OrgKey)
    | MarkerExpires(org: OrgKey)

  const START := State(map[], map[], {}, map[], {}, {})

  function Orgs(s: State, i: Instance): PromiseMap {
    if i in s.maps then s.maps[i] else map[]
  }

  function At(s: State, a: AttemptId, stage: Stage): State
    requires a in s.attempts
  {
    s.(attempts := s.attempts[a := s.attempts[a].(stage := stage)])
  }

  predicate OfAttempt(e: Event) {
    !e.Request? && !e.LockExpires? && !e.MarkerExpires?
  }

  predicate Enabled(s: State, e: Event) {
    match e
    case Request(_, _, id) => id !in s.attempts
    case LockExpires(key) => key in s.locks && s.locks[key] in s.attempts
    case MarkerExpires(key) => key in s.done
    case _ =>
      && e.attempt in s.attempts
      && var stage := s.attempts[e.attempt].stage;
         match e
         case MarkerRead(_, _) => stage.CheckingMarker?
         case LockTried(_, _) => stage.TakingLock?
         case EnsureReturned(_, _) => stage.Ensuring?
         case MarkerWritten(_, _) => stage.Marking?
         case LockReleased(_, _) => stage.ReleasingLock?
         case _ => stage.Settling?
  }

  /** A marker that cannot be read counts as missing. */
  function ReadMarker(s: State, a: AttemptId, reply: Reply): State
    requires a in s.attempts
  {
    At(s, a, if reply.Ok() && s.attempts[a].key in s.done then Settling(Succeeded(SawDoneMarker)) else TakingLock)
  }

  /** A free lock is set, a taken one ends the attempt, and a failed request lets it through. */
  function TryAcquire(s: State, a: AttemptId, reply: Reply): State
    requires a in s.attempts
  {
    var at := s.attempts[a];
    if reply.TookEffect() && at.key !in s.locks then
      s.(locks := s.locks[at.key := a], attempts := s.attempts[a := at.(stage := Ensuring, guard := Holding)])
    else if reply.Ok() then
      At(s, a, Settling(Succeeded(LostLock)))
    else
      s.(attempts := s.attempts[a := at.(stage := Ensuring, guard := Lockless)])
  }

  function EnsureDone(s: State, a: AttemptId, result: Option<bool>): State
    requires a in s.attempts
  {
    match result
    case Some(true) => At(s.(ensured := s.ensured + {s.attempts[a].key}), a, Marking)
    case Some(false) => At(s, a, ReleasingLock(Refused))
    case None => At(s, a, ReleasingLock(Threw))
  }

  /** A failed write of the marker is not noticed. */
  function WriteMarker(s: State, a: AttemptId, reply: Reply): State
    requires a in s.attempts
  {
    var key := s.attempts[a].key;
    At(if reply.TookEffect() then s.(done := s.done + {key}, marked := s.marked + {key}) else s,
       a, ReleasingLock(Succeeded(ProvisionedItself(reply.TookEffect()))))
  }

  function DropLock(s: State, key: OrgKey, guard: Guard): State
    requires key in s.locks && s.locks[key] in s.attempts
  {
    var b := s.locks[key];
    s.(locks := s.locks - {key}, attempts := s.attempts[b := s.attempts[b].(guard := guard)])
  }

  /** Whether the lock of the organization carries the value of this attempt's instance. */
  predicate SameInstance(s: State, a: AttemptId)
    requires a in s.attempts
  {
    && s.attempts[a].key in s.locks && s.locks[s.attempts[a].key] in s.attempts
    && s.attempts[s.locks[s.attempts[a].key]].instance == s.attempts[a].instance
  }

  /** Compare and delete; a failed release is not noticed. */
  function Release(s: State, a: AttemptId, reply: Reply, outcome: Outcome): State
    requires a in s.attempts
  {
    At(if reply.TookEffect() && SameInstance(s, a) then DropLock(s, s.attempts[a].key, Deleted) else s,
       a, Settling(outcome))
  }

  function Step(s: State, e: Event): State
    requires Enabled(s, e)
  {
    match e
    case Request(i, key, id) =>
      var orgs := Orgs(s, i);
      s.(maps := s.maps[i := AfterRequest(orgs, key, id)],
         attempts := if key in orgs then s.attempts
                     else s.attempts[id := Attempt(i, key, CheckingMarker, NoLock)])
    case MarkerRead(a, reply) => ReadMarker(s, a, reply)
    case LockTried(a, reply) => TryAcquire(s, a, reply)
    case EnsureReturned(a, result) => EnsureDone(s, a, result)
    case MarkerWritten(a, reply) => WriteMarker(s, a, reply)
    case LockReleased(a, reply) => Release(s, a, reply, s.attempts[a].stage.outcome)
    case Settled(a) =>
      var i, key, outcome := s.attempts[a].instance, s.attempts[a].key, s.attempts[a].stage.outcome;
      At(s.(maps := s.maps[i := AfterSettling(Orgs(s, i), key, outcome)]), a, Over(outcome))
    case LockExpires(key) => DropLock(s, key, Expired)
    case MarkerExpires(key) => s.(done := s.done - {key})
  }

  function Exec(es: seq<Event>): Option<State> {
    if es == [] then Some(START)
    else
      match Exec(es[..|es| - 1])
      case None => None
      case Some(s) => if Enabled(s, es[|es| - 1]) then Some(Step(s, es[|es| - 1])) else None
  }

  // ---------- invariant ----------

  /** Between taking the lock, or being let through, and releasing it. */
  predicate AtWork(s: State, a: AttemptId) {
    && a in s.attempts
    && var stage := s.attempts[a].stage;
       stage.Ensuring? || stage.Marking? || stage.ReleasingLock?
  }

  predicate Open(s: State, a: AttemptId) {
    a in s.attempts && !s.attempts[a].stage.Over?
  }

  predicate HasOutcome(stage: Stage) {
    stage.ReleasingLock? || stage.Settling? || stage.Over?
  }

  /** The attempt set the lock, whatever became of it. */
  predicate Locked(s: State, a: AttemptId, key: OrgKey) {
    && a in s.attempts && s.attempts[a].key == key
    && (s.attempts[a].guard.Holding? || s.attempts[a].guard.Expired? || s.attempts[a].guard.Deleted?)
  }

  ghost predicate EverLocked(s: State, key: OrgKey) {
    exists a :: Locked(s, a, key)
  }

  /** What a reason for success says of the organization. */
  ghost predicate ReasonInv(s: State, key: OrgKey, reason: Reason) {
    match reason
    case SawDoneMarker => key in s.marked
    case LostLock => EverLocked(s, key)
    case ProvisionedItself(marked) => key in s.ensured && (marked ==> key in s.marked)
  }

  ghost predicate GuardInv(s: State, a: AttemptId)
    requires a in s.attempts
  {
    var at := s.attempts[a];
    && (at.guard.Holding? <==> at.key in s.locks && s.locks[at.key] == a)
    && (at.guard.NoLock? <==> at.stage.CheckingMarker? || at.stage.TakingLock?
                              || (HasOutcome(at.stage) && at.stage.outcome.Succeeded?
                                  && !at.stage.outcome.reason.ProvisionedItself?))
    && (AtWork(s, a) ==> !at.guard.NoLock? && !at.guard.Deleted?)
  }

  /** The promise map of its instance waits for an open attempt. */
  predicate WaitInv(s: State, a: AttemptId)
    requires a in s.attempts
  {
    var at := s.attempts[a];
    Open(s, a) ==> at.key in Orgs(s, at.instance) && Orgs(s, at.instance)[at.key] == Pending(a)
  }

  ghost predicate OutcomeInv(s: State, a: AttemptId)
    requires a in s.attempts
  {
    var at := s.attempts[a];
    && (at.stage.Marking? ==> at.key in s.ensured)
    && (HasOutcome(at.stage) && at.stage.outcome.Succeeded? ==> ReasonInv(s, at.key, at.stage.outcome.reason))
  }

  predicate LockInv(s: State, key: OrgKey)
    requires key in s.locks
  {
    s.locks[key] in s.attempts && s.attempts[s.locks[key]].key == key
  }

  ghost predicate EntryInv(s: State, i: Instance, key: OrgKey)
    requires i in s.maps && key in s.maps[i]
  {
    match s.maps[i][key]
    case Pending(a) => Open(s, a) && s.attempts[a].instance == i && s.attempts[a].key == key
    case Resolved(reason) => ReasonInv(s, key, reason)
  }

  ghost predicate LocksInv(s: State) {
    && (forall a <- s.attempts.Keys :: GuardInv(s, a))
    && (forall key <- s.locks.Keys :: LockInv(s, key))
    && (forall a <- s.attempts.Keys :: WaitInv(s, a))
  }

  ghost predicate ResultsInv(s: State) {
    && (forall a <- s.attempts.Keys :: OutcomeInv(s, a))
    && (forall i <- s.maps.Keys, key <- s.maps[i].Keys :: EntryInv(s, i, key))
    && s.done <= s.marked <= s.ensured
  }

  ghost predicate Inv(s: State) {
    LocksInv(s) && ResultsInv(s)
  }

  /** What a step leaves alone. */
  predicate Framed(s: State, t: State, e: Event) {
    && s.attempts.Keys <= t.attempts.Keys && s.ensured <= t.ensured && s.marked <= t.marked
    && (forall a <- s.attempts.Keys ::
          t.attempts[a].instance == s.attempts[a].instance && t.attempts[a].key == s.attempts[a].key)
    && (forall a <- s.attempts.Keys :: !(OfAttempt(e) && a == e.attempt) ==> t.attempts[a].stage == s.attempts[a].stage)
    && (!e.Request? ==> t.attempts.Keys == s.attempts.Keys && (!e.Settled? ==> t.maps == s.maps))
  }

  lemma ReleaseFramed(s: State, e: Event)
    requires Enabled(s, e) && e.LockReleased?
    ensures Framed(s, Step(s, e), e)
  {
  }

  lemma TryAcquireFramed(s: State, e: Event)
    requires Enabled(s, e) && e.LockTried?
    ensures Framed(s, Step(s, e), e)
  {
  }

  lemma ExpiryFramed(s: State, e: Event)
    requires Enabled(s, e) && !OfAttempt(e)
    ensures Framed(s, Step(s, e), e)
  {
  }

  lemma StepFramed(s: State, e: Event)
    requires Enabled(s, e)
    ensures Framed(s, Step(s, e), e)
  {
    match e
    case LockReleased(_, _) => ReleaseFramed(s, e);
    case LockTried(_, _) => TryAcquireFramed(s, e);
    case LockExpires(_) => ExpiryFramed(s, e);
    case MarkerExpires(_) => ExpiryFramed(s, e);
    case Request(_, _, _) => ExpiryFramed(s, e);
    case _ =>
  }

  // ---------- guards ----------

  /** Two open attempts of one instance for one organization are the same. */
  lemma SameInstanceIsSame(s: State, a: AttemptId, b: AttemptId)
    requires LocksInv(s) && Open(s, a) && Open(s, b)
    requires s.attempts[a].key == s.attempts[b].key && s.attempts[a].instance == s.attempts[b].instance
    ensures a == b
  {
    assert WaitInv(s, a) && WaitInv(s, b);
  }

  lemma ReleaseGuards(s: State, a: AttemptId, reply: Reply, b: AttemptId)
    requires LocksInv(s) && Enabled(s, LockReleased(a, reply)) && b in s.attempts
    ensures GuardInv(Release(s, a, reply, s.attempts[a].stage.outcome), b)
  {
    assert GuardInv(s, a) && GuardInv(s, b);
    if SameInstance(s, a) {
      var owner := s.locks[s.attempts[a].key];
      assert LockInv(s, s.attempts[a].key) && GuardInv(s, owner);
      if Open(s, owner) {
        SameInstanceIsSame(s, a, owner);
      }
    }
  }

  lemma TryAcquireGuards(s: State, a: AttemptId, reply: Reply, b: AttemptId)
    requires LocksInv(s) && Enabled(s, LockTried(a, reply)) && b in s.attempts
    ensures GuardInv(TryAcquire(s, a, reply), b)
  {
    assert GuardInv(s, a) && GuardInv(s, b);
  }

  lemma ExpiryGuards(s: State, key: OrgKey, b: AttemptId)
    requires LocksInv(s) && Enabled(s, LockExpires(key)) && b in s.attempts
    ensures GuardInv(DropLock(s, key, Expired), b)
  {
    assert GuardInv(s, b) && LockInv(s, key);
    assert GuardInv(s, s.locks[key]);
  }

  /** Steps that set, drop or lose no lock. */
  lemma OtherGuards(s: State, e: Event, b: AttemptId)
    requires LocksInv(s) && Enabled(s, e) && b in s.attempts
    requires e.MarkerRead? || e.EnsureReturned? || e.MarkerWritten? || e.Settled?
    ensures GuardInv(Step(s, e), b)
  {
    hide WaitInv, LockInv;
    assert GuardInv(s, b) && GuardInv(s, e.attempt);
  }

  lemma RequestGuards(s: State, e: Event, b: AttemptId)
    requires LocksInv(s) && Enabled(s, e) && e.Request? && b in Step(s, e).attempts
    ensures GuardInv(Step(s, e), b)
  {
    if b in s.attempts {
      assert GuardInv(s, b);
    } else {
      assert e.key in s.locks ==> LockInv(s, e.key);
    }
  }

  lemma GuardStep(s: State, e: Event, b: AttemptId)
    requires LocksInv(s) && Enabled(s, e) && b in Step(s, e).attempts
    ensures GuardInv(Step(s, e), b)
  {
    StepFramed(s, e);
    match e
    case LockReleased(a, reply) => ReleaseGuards(s, a, reply, b);
    case LockTried(a, reply) => TryAcquireGuards(s, a, reply, b);
    case LockExpires(key) => ExpiryGuards(s, key, b);
    case MarkerExpires(_) => assert GuardInv(s, b);
    case Request(_, _, _) => RequestGuards(s, e, b);
    case _ => OtherGuards(s, e, b);
  }

  lemma LockStep(s: State, e: Event, key: OrgKey)
    requires LocksInv(s) && Enabled(s, e) && key in Step(s, e).locks
    ensures LockInv(Step(s, e), key)
  {
    StepFramed(s, e);
    assert key in s.locks ==> LockInv(s, key);
  }

  lemma WaitStep(s: State, e: Event, b: AttemptId)
    requires LocksInv(s) && ResultsInv(s) && Enabled(s, e) && b in Step(s, e).attempts
    ensures WaitInv(Step(s, e), b)
  {
    hide GuardInv, OutcomeInv, ReasonInv;
    StepFramed(s, e);
    assert b in s.attempts ==> WaitInv(s, b);
    if OfAttempt(e) {
      assert WaitInv(s, e.attempt);
    }
  }

  // ---------- results ----------

  /** A lock that was set stays set, expired or deleted. */
  lemma LockedStays(s: State, e: Event, a: AttemptId, key: OrgKey)
    requires LocksInv(s) && Enabled(s, e) && Locked(s, a, key)
    ensures Locked(Step(s, e), a, key)
  {
    assert GuardInv(s, a);
  }

  lemma ReasonStays(s: State, e: Event, key: OrgKey, reason: Reason)
    requires LocksInv(s) && Enabled(s, e) && ReasonInv(s, key, reason)
    ensures ReasonInv(Step(s, e), key, reason)
  {
    StepFramed(s, e);
    if reason.LostLock? {
      var a :| Locked(s, a, key);
      LockedStays(s, e, a, key);
    }
  }

  lemma OutcomeStep(s: State, e: Event, b: AttemptId)
    requires Inv(s) && Enabled(s, e) && b in Step(s, e).attempts
    ensures OutcomeInv(Step(s, e), b)
  {
    StepFramed(s, e);
    if b in s.attempts {
      assert OutcomeInv(s, b);
      var stage := s.attempts[b].stage;
      if HasOutcome(stage) && stage.outcome.Succeeded? {
        ReasonStays(s, e, s.attempts[b].key, stage.outcome.reason);
      } else if e.LockTried? && b == e.attempt {
        LostLockWasSet(s, b, e.reply);
      }
    }
  }

  /** Whoever loses the lock finds it set. */
  lemma LostLockWasSet(s: State, a: AttemptId, reply: Reply)
    requires LocksInv(s) && Enabled(s, LockTried(a, reply))
    ensures OutcomeInv(TryAcquire(s, a, reply), a)
  {
    var t, key := TryAcquire(s, a, reply), s.attempts[a].key;
    if t.attempts[a].stage.Settling? {
      assert LockInv(s, key) && GuardInv(s, s.locks[key]) && GuardInv(s, a);
      assert Locked(t, s.locks[key], key);
    }
  }

  lemma EntryStep(s: State, e: Event, i: Instance, key: OrgKey)
    requires Inv(s) && Enabled(s, e) && i in Step(s, e).maps && key in Step(s, e).maps[i]
    ensures EntryInv(Step(s, e), i, key)
  {
    hide GuardInv, OutcomeInv, WaitInv, LockInv;
    StepFramed(s, e);
    var known := i in s.maps && key in s.maps[i];
    assert known ==> EntryInv(s, i, key);
    if known && s.maps[i][key].Resolved? {
      ReasonStays(s, e, key, s.maps[i][key].reason);
    }
    if e.Settled? {
      SettledEntry(s, e, i, key);
    }
  }

  lemma SettledEntry(s: State, e: Event, i: Instance, key: OrgKey)
    requires Inv(s) && Enabled(s, e) && e.Settled? && i in Step(s, e).maps && key in Step(s, e).maps[i]
    ensures EntryInv(Step(s, e), i, key)
  {
    StepFramed(s, e);
    var at := s.attempts[e.attempt];
    assert WaitInv(s, e.attempt) && OutcomeInv(s, e.attempt);
    assert i in s.maps && key in s.maps[i] ==> EntryInv(s, i, key);
    if at.stage.outcome.Succeeded? {
      ReasonStays(s, e, at.key, at.stage.outcome.reason);
    }
    if i in s.maps && key in s.maps[i] && s.maps[i][key].Resolved? {
      ReasonStays(s, e, key, s.maps[i][key].reason);
    }
  }

  lemma StepInv(s: State, e: Event)
    requires Inv(s) && Enabled(s, e)
    ensures Inv(Step(s, e))
  {
    var t := Step(s, e);
    forall a <- t.attempts.Keys
      ensures GuardInv(t, a) && WaitInv(t, a) && OutcomeInv(t, a)
    {
      GuardStep(s, e, a);
      WaitStep(s, e, a);
      OutcomeStep(s, e, a);
    }
    forall key <- t.locks.Keys {
      LockStep(s, e, key);
    }
    forall i <- t.maps.Keys, key <- t.maps[i].Keys {
      EntryStep(s, e, i, key);
    }
    MarkersStep(s, e);
  }

  lemma MarkersStep(s: State, e: Event)
    requires Inv(s) && Enabled(s, e)
    ensures Step(s, e).done <= Step(s, e).marked <= Step(s, e).ensured
  {
    if e.MarkerWritten? {
      assert OutcomeInv(s, e.attempt);
    }
  }

  lemma {:induction false} ExecInv(es: seq<Event>)
    requires Exec(es).Some?
    ensures Inv(Exec(es).value)
  {
    if es != [] {
      ExecInv(es[..|es| - 1]);
      StepInv(Exec(es[..|es| - 1]).value, es[|es| - 1]);
    }
  }
}
