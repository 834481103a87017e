module AcceptanceDeadlines {
  import opened DeadlineScheduler
  import opened Options

  datatype Timeouts = Timeouts(
    work: int,
    workDrain: int,
    cleanup: int,
    cleanupDrain: int,
    close: int,
    total: int,
    phases: seq<int>
  ) {
    /** The headroom guard of the plan; a run exists only when it passes. */
    predicate Admitted() {
      work + workDrain + cleanup + cleanupDrain + close <= total
    }

    function PlanDeadline(): int { total - close }

    predicate WorkValid() { 1 <= work && 1 <= workDrain }

    predicate CleanupValid() { 1 <= cleanup && 1 <= cleanupDrain }

    /** Longest time the work, respectively the cleanup, can keep the plan busy. */
    function WorkBound(): int { if WorkValid() then work + workDrain else 0 }

    function CleanupBound(): int { if CleanupValid() then cleanup + cleanupDrain else 0 }

    predicate Headroom() { WorkBound() + CleanupBound() <= PlanDeadline() }
  }

  datatype TimerKind =
    | TotalTimer
    | WorkTimer
    | PhaseTimer
    | WorkDrainTimer
    | PhaseDrainTimer
    | CleanupTimer
    | CleanupDrainTimer

  datatype Failure =
    | DeadlineFailure
    | DrainFailure
    | OperationFailure
    | InvalidTimeout
    | CleanupSuppressed

  const WORK_TIMERS := {TotalTimer, WorkTimer, PhaseTimer, WorkDrainTimer, PhaseDrainTimer}

  /** How a plan operation settles; its own error may be of the drain class. */
  datatype Outcome = Fulfilled | Rejected(asDrainError: bool) {
    function Reason(): Option<Failure> {
      if Fulfilled? then None
      else if asDrainError then Some(DrainFailure)
      else Some(OperationFailure)
    }
  }

  /** One cooperative deadline: still racing its operation, or aborted and waiting
      for it to drain. The flag says whether its own timer aborted it. */
  datatype Race = Racing | Draining(ownDeadline: bool)

  datatype Stage =
    | Working(phase: nat, outer: Race, inner: Race)
    | CleaningUp(race: Race)
    | Settled

  /** What was true when the cleanup operation was called. */
  datatype CleanupCall = NotCalled | Called(phaseStillActive: bool)

  datatype State = State(
    now: int,
    timers: Queue<TimerKind>,
    stage: Stage,
    phaseActive: bool,
    phaseStart: int,
    totalAborted: bool,
    primary: Option<Failure>,
    cleanupFailure: Option<Failure>,
    cleanupCall: CleanupCall
  )

  datatype Event =
    | Advance(time: int)
    | Fire(timer: TimerKind)
    | PhaseSettles(phaseOutcome: Outcome)
    | StrayPhaseSettles
    | CleanupSettles(cleanupOutcome: Outcome)

  function Finish(s: State): State {
    s.(stage := Settled, timers := s.timers.Cancel(TotalTimer))
  }

  function EnterCleanup(c: Timeouts, s: State): State {
    if !c.CleanupValid() then
      Finish(s.(cleanupFailure := Some(InvalidTimeout)))
    else
      var timers := s.timers.Schedule(CleanupTimer, s.now + c.cleanup);
      var called := s.(cleanupCall := Called(s.phaseActive));
      if s.totalAborted then
        called.(stage := CleaningUp(Draining(false)),
                timers := timers.Schedule(CleanupDrainTimer, s.now + c.cleanupDrain))
      else
        called.(stage := CleaningUp(Racing), timers := timers)
  }

  function AfterWork(c: Timeouts, s: State): State {
    if s.primary == Some(DrainFailure) then
      Finish(s.(cleanupFailure := Some(CleanupSuppressed)))
    else
      EnterCleanup(c, s)
  }

  /** The phase loop, which is the outer deadline's operation, settles. */
  function LoopSettles(c: Timeouts, s: State, outer: Race, failure: Option<Failure>): State {
    var released := s.(timers := s.timers.Cancel(WorkTimer).Cancel(WorkDrainTimer));
    match outer
    case Racing =>
      AfterWork(c, released.(primary := failure))
    case Draining(_) =>
      AfterWork(c, released.(primary := Some(DeadlineFailure)))
  }

  function StartPhase(c: Timeouts, s: State, k: nat, outer: Race): State {
    if k >= |c.phases| then
      LoopSettles(c, s, outer, None)
    else if c.phases[k] < 1 then
      LoopSettles(c, s, outer, Some(InvalidTimeout))
    else
      var timers := s.timers.Schedule(PhaseTimer, s.now + c.phases[k]);
      var started := s.(phaseActive := true, phaseStart := s.now);
      if outer.Draining? then
        started.(stage := Working(k, outer, Draining(false)),
                 timers := timers.Schedule(PhaseDrainTimer, s.now + c.workDrain))
      else
        started.(stage := Working(k, outer, Racing), timers := timers)
  }

  function Start(c: Timeouts): State {
    var timers := Queue(map[], 0).Schedule(TotalTimer, c.PlanDeadline());
    var s := State(0, timers, Settled, false, 0, false, None, None, NotCalled);
    if !c.WorkValid() then
      AfterWork(c, s.(primary := Some(InvalidTimeout)))
    else
      StartPhase(c, s.(timers := timers.Schedule(WorkTimer, c.work)), 0, Racing)
  }

  /** The work signal aborts: the outer race drains first, then the phase race. */
  function AbortWork(c: Timeouts, s: State, ownDeadline: bool): State
    requires s.stage.Working?
  {
    match s.stage
    case Working(k, Racing, inner) =>
      var timers := s.timers.Schedule(WorkDrainTimer, s.now + c.workDrain);
      if inner.Racing? then
        s.(stage := Working(k, Draining(ownDeadline), Draining(false)),
           timers := timers.Schedule(PhaseDrainTimer, s.now + c.workDrain))
      else
        s.(stage := Working(k, Draining(ownDeadline), inner), timers := timers)
    case _ => s
  }

  function AbortCleanup(c: Timeouts, s: State, ownDeadline: bool): State
    requires s.stage.CleaningUp?
  {
    if s.stage.race.Racing? then
      s.(stage := CleaningUp(Draining(ownDeadline)),
         timers := s.timers.Schedule(CleanupDrainTimer, s.now + c.cleanupDrain))
    else
      s
  }

  function FireTimer(c: Timeouts, s: State, timer: TimerKind): State {
    var t := s.(timers := s.timers.Cancel(timer));
    match (timer, s.stage)
    case (TotalTimer, Working(_, _, _)) => AbortWork(c, t.(totalAborted := true), false)
    case (TotalTimer, CleaningUp(_)) => AbortCleanup(c, t.(totalAborted := true), false)
    case (WorkTimer, Working(_, _, _)) => AbortWork(c, t, true)
    case (PhaseTimer, Working(k, outer, Racing)) =>
      t.(stage := Working(k, outer, Draining(true)),
         timers := t.timers.Schedule(PhaseDrainTimer, s.now + c.workDrain))
    case (PhaseDrainTimer, Working(k, outer, _)) =>
      LoopSettles(c, t.(timers := t.timers.Cancel(PhaseTimer)), outer, Some(DrainFailure))
    case (WorkDrainTimer, Working(k, outer, _)) =>
      AfterWork(c, t.(timers := t.timers.Cancel(WorkTimer), primary := Some(DrainFailure)))
    case (CleanupTimer, CleaningUp(_)) => AbortCleanup(c, t, true)
    case (CleanupDrainTimer, CleaningUp(_)) =>
      Finish(t.(timers := t.timers.Cancel(CleanupTimer), cleanupFailure := Some(DrainFailure)))
    case _ => t
  }

  function PhaseDone(c: Timeouts, s: State, outcome: Outcome): State
    requires s.stage.Working?
  {
    var Working(k, outer, inner) := s.stage;
    var t := s.(phaseActive := false,
                timers := s.timers.Cancel(PhaseTimer).Cancel(PhaseDrainTimer));
    if inner.Draining? then
      LoopSettles(c, t, outer, Some(DeadlineFailure))
    else if outcome.Rejected? then
      LoopSettles(c, t, outer, outcome.Reason())
    else
      StartPhase(c, t, k + 1, outer)
  }

  function CleanupDone(s: State, outcome: Outcome): State
    requires s.stage.CleaningUp?
  {
    var failure :=
      if s.stage.race.Draining? then Some(DeadlineFailure)
      else outcome.Reason();
    Finish(s.(cleanupFailure := failure,
              timers := s.timers.Cancel(CleanupTimer).Cancel(CleanupDrainTimer)))
  }

  predicate Enabled(s: State, e: Event) {
    && !s.stage.Settled?
    && match e
       case Advance(time) => s.now < time && s.timers.MayAdvanceTo(time)
       case Fire(timer) => s.timers.IsNext(timer) && s.timers.pending[timer].due <= s.now
       case PhaseSettles(_) => s.stage.Working? && s.phaseActive
       case StrayPhaseSettles => s.stage.CleaningUp? && s.phaseActive
       case CleanupSettles(_) => s.stage.CleaningUp?
  }

  function Step(c: Timeouts, s: State, e: Event): State
    requires Enabled(s, e)
  {
    match e
    case Advance(time) => s.(now := time)
    case Fire(timer) => FireTimer(c, s, timer)
    case PhaseSettles(outcome) => PhaseDone(c, s, outcome)
    case StrayPhaseSettles => s.(phaseActive := false)
    case CleanupSettles(outcome) => CleanupDone(s, outcome)
  }

  /** The state after a run, or None when some event was not possible. */
  function Exec(c: Timeouts, es: seq<Event>): Option<State> {
    if es == [] then Some(Start(c))
    else
      match Exec(c, es[..|es| - 1])
      case None => None
      case Some(s) => if Enabled(s, es[|es| - 1]) then Some(Step(c, s, es[|es| - 1])) else None
  }

  // ---------- the inductive invariant ----------

  /** The sum of the first k phase timeouts. */
  function PhaseSum(c: Timeouts, k: nat): int
    requires k <= |c.phases|
  {
    if k == 0 then 0 else PhaseSum(c, k - 1) + c.phases[k - 1]
  }

  predicate PhasesValid(c: Timeouts, k: nat) {
    k <= |c.phases| && forall j :: 0 <= j < k ==> 1 <= c.phases[j]
  }

  ghost predicate Scheduled(s: State, k: TimerKind, due: int) {
    k in s.timers.pending && s.timers.pending[k].due == due
  }

  ghost predicate InOrder(s: State, j: TimerKind, k: TimerKind) {
    j in s.timers.pending && k in s.timers.pending ==> s.timers.pending[j].order < s.timers.pending[k].order
  }

  ghost predicate PendingBetween(s: State, all: set<TimerKind>, optional: set<TimerKind>) {
    all <= s.timers.pending.Keys <= all + optional
  }

  ghost predicate OrdersIssued(s: State) {
    forall k <- s.timers.pending.Keys :: s.timers.pending[k].order < s.timers.issued
  }

  ghost predicate TotalTimerInv(c: Timeouts, s: State) {
    if s.totalAborted then TotalTimer !in s.timers.pending && s.now == c.PlanDeadline()
    else Scheduled(s, TotalTimer, c.PlanDeadline())
  }

  /** Both races on: total, work and phase timers pending. */
  ghost predicate RacingInv(c: Timeouts, s: State, due: int) {
    && s.timers.pending.Keys == {TotalTimer, WorkTimer, PhaseTimer}
    && !s.totalAborted
    && Scheduled(s, WorkTimer, c.work)
    && Scheduled(s, PhaseTimer, due)
    && InOrder(s, WorkTimer, PhaseTimer)
    && s.now <= c.work && s.now <= due
  }

  /** The phase missed its own deadline, the work has not. */
  ghost predicate PhaseDrainingInv(c: Timeouts, s: State, due: int) {
    && s.timers.pending.Keys == {TotalTimer, WorkTimer, PhaseDrainTimer}
    && !s.totalAborted
    && Scheduled(s, WorkTimer, c.work)
    && Scheduled(s, PhaseDrainTimer, due + c.workDrain)
    && InOrder(s, WorkTimer, PhaseDrainTimer)
    && due < c.work
    && due <= s.now <= c.work && s.now <= due + c.workDrain
  }

  /** The work deadline aborted a phase that was still racing. */
  ghost predicate BothDrainingInv(c: Timeouts, s: State, due: int) {
    && PendingBetween(s, {WorkDrainTimer, PhaseDrainTimer}, {TotalTimer, PhaseTimer})
    && (PhaseTimer in s.timers.pending ==> Scheduled(s, PhaseTimer, due))
    && Scheduled(s, WorkDrainTimer, c.work + c.workDrain)
    && Scheduled(s, PhaseDrainTimer, c.work + c.workDrain)
    && InOrder(s, WorkDrainTimer, PhaseDrainTimer)
    && c.work <= due
    && c.work <= s.now <= c.work + c.workDrain
  }

  /** The work deadline fired while the phase was already draining. */
  ghost predicate LateAbortInv(c: Timeouts, s: State, due: int) {
    && PendingBetween(s, {WorkDrainTimer, PhaseDrainTimer}, {TotalTimer})
    && !s.totalAborted
    && Scheduled(s, WorkDrainTimer, c.work + c.workDrain)
    && Scheduled(s, PhaseDrainTimer, due + c.workDrain)
    && due < c.work <= s.now <= due + c.workDrain
  }

  ghost predicate WorkingInv(c: Timeouts, s: State)
    requires s.stage.Working?
  {
    var k := s.stage.phase;
    && c.WorkValid()
    && PhasesValid(c, k + 1)
    && 0 <= s.phaseStart <= PhaseSum(c, k)
    && s.phaseStart <= s.now
    && s.phaseActive
    && s.primary == None
    && s.cleanupFailure == None
    && s.cleanupCall == NotCalled
    && TotalTimerInv(c, s)
    && var due := s.phaseStart + c.phases[k];
       match (s.stage.outer, s.stage.inner)
       case (Racing, Racing) => RacingInv(c, s, due)
       case (Racing, Draining(own)) => own && PhaseDrainingInv(c, s, due)
       case (Draining(own), Draining(innerOwn)) =>
         own && if innerOwn then LateAbortInv(c, s, due) else BothDrainingInv(c, s, due)
       case _ => false
  }

  ghost predicate CleaningInv(c: Timeouts, s: State)
    requires s.stage.CleaningUp?
  {
    && c.CleanupValid()
    && TotalTimerInv(c, s)
    && s.cleanupFailure == None
    && s.cleanupCall.Called?
    && s.primary != Some(DrainFailure)
    && match s.stage.race
       case Racing =>
         && !s.totalAborted
         && s.timers.pending.Keys == {TotalTimer, CleanupTimer}
         && s.now <= s.timers.pending[CleanupTimer].due <= c.WorkBound() + c.cleanup
       case Draining(own) =>
         && own
         && PendingBetween(s, {CleanupDrainTimer}, {TotalTimer})
         && s.now <= s.timers.pending[CleanupDrainTimer].due <= c.WorkBound() + c.cleanup + c.cleanupDrain
  }

  ghost predicate Inv(c: Timeouts, s: State) {
    && OrdersIssued(s)
    && 0 <= s.now <= c.PlanDeadline()
    && match s.stage
       case Working(_, _, _) => WorkingInv(c, s)
       case CleaningUp(_) => CleaningInv(c, s)
       case Settled => s.cleanupFailure == Some(CleanupSuppressed) <==> s.primary == Some(DrainFailure)
  }

  lemma AfterWorkInv(c: Timeouts, s: State)
    requires c.Headroom() && OrdersIssued(s)
    requires 0 <= s.now <= c.WorkBound()
    requires s.timers.pending.Keys <= {TotalTimer}
    requires TotalTimerInv(c, s)
    requires s.cleanupFailure == None && s.cleanupCall == NotCalled
    ensures Inv(c, AfterWork(c, s))
  {
  }

  lemma LoopSettlesInv(c: Timeouts, s: State, outer: Race, failure: Option<Failure>)
    requires c.Headroom() && c.WorkValid() && OrdersIssued(s)
    requires 0 <= s.now <= c.work + c.workDrain
    requires s.timers.pending.Keys <= {TotalTimer, WorkTimer, WorkDrainTimer}
    requires TotalTimerInv(c, s)
    requires s.cleanupFailure == None && s.cleanupCall == NotCalled
    ensures Inv(c, LoopSettles(c, s, outer, failure))
  {
    var primary := if outer.Draining? then Some(DeadlineFailure) else failure;
    AfterWorkInv(c, s.(timers := s.timers.Cancel(WorkTimer).Cancel(WorkDrainTimer), primary := primary));
  }

  lemma StartPhaseInv(c: Timeouts, s: State, k: nat)
    requires c.Headroom() && c.WorkValid() && OrdersIssued(s)
    requires PhasesValid(c, k)
    requires 0 <= s.now <= c.work && s.now <= PhaseSum(c, k)
    requires s.timers.pending.Keys == {TotalTimer, WorkTimer}
    requires !s.totalAborted && TotalTimerInv(c, s) && Scheduled(s, WorkTimer, c.work)
    requires s.primary == None && s.cleanupFailure == None && s.cleanupCall == NotCalled
    ensures Inv(c, StartPhase(c, s, k, Racing))
  {
    if k >= |c.phases| {
      LoopSettlesInv(c, s, Racing, None);
    } else if c.phases[k] < 1 {
      LoopSettlesInv(c, s, Racing, Some(InvalidTimeout));
    }
  }

  lemma StartInv(c: Timeouts)
    requires c.Headroom()
    ensures Inv(c, Start(c))
  {
    var timers := Queue(map[], 0).Schedule(TotalTimer, c.PlanDeadline());
    var s := State(0, timers, Settled, false, 0, false, None, None, NotCalled);
    if c.WorkValid() {
      StartPhaseInv(c, s.(timers := timers.Schedule(WorkTimer, c.work)), 0);
    } else {
      AfterWorkInv(c, s.(primary := Some(InvalidTimeout)));
    }
  }

  /** Releasing a phase leaves only the timers of the plan and of the outer race. */
  lemma PendingAfterPhase(s: State, t: State)
    requires s.timers.pending.Keys <= WORK_TIMERS
    requires t.timers.pending.Keys == s.timers.pending.Keys - {PhaseTimer, PhaseDrainTimer}
    ensures t.timers.pending.Keys <= {TotalTimer, WorkTimer, WorkDrainTimer}
  {
  }

  lemma FireWorkDrainInv(c: Timeouts, s: State)
    requires c.Headroom() && Inv(c, s) && s.stage.Working? && Enabled(s, Fire(WorkDrainTimer))
    ensures Inv(c, FireTimer(c, s, WorkDrainTimer))
  {
  }

  lemma FirePhaseInv(c: Timeouts, s: State)
    requires c.Headroom() && Inv(c, s) && s.stage.Working? && Enabled(s, Fire(PhaseTimer))
    ensures Inv(c, FireTimer(c, s, PhaseTimer))
  {
  }

  lemma FireAbortInv(c: Timeouts, s: State, timer: TimerKind)
    requires c.Headroom() && Inv(c, s) && s.stage.Working? && Enabled(s, Fire(timer))
    requires timer != PhaseTimer && timer != WorkDrainTimer && timer != PhaseDrainTimer
    ensures Inv(c, FireTimer(c, s, timer))
  {
  }

  lemma FireWorkingInv(c: Timeouts, s: State, timer: TimerKind)
    requires c.Headroom() && Inv(c, s) && s.stage.Working?
    requires Enabled(s, Fire(timer))
    ensures Inv(c, FireTimer(c, s, timer))
  {
    match timer
    case PhaseDrainTimer =>
      var released := s.(timers := s.timers.Cancel(timer).Cancel(PhaseTimer));
      PendingAfterPhase(s, released);
      LoopSettlesInv(c, released, s.stage.outer, Some(DrainFailure));
    case WorkDrainTimer =>
      FireWorkDrainInv(c, s);
    case PhaseTimer =>
      FirePhaseInv(c, s);
    case _ =>
      FireAbortInv(c, s, timer);
  }

  lemma FireCleaningInv(c: Timeouts, s: State, timer: TimerKind)
    requires c.Headroom() && Inv(c, s) && s.stage.CleaningUp?
    requires Enabled(s, Fire(timer))
    ensures Inv(c, FireTimer(c, s, timer))
  {
  }

  lemma PhaseDoneInv(c: Timeouts, s: State, outcome: Outcome)
    requires c.Headroom() && Inv(c, s) && Enabled(s, PhaseSettles(outcome))
    ensures Inv(c, PhaseDone(c, s, outcome))
  {
    var Working(k, outer, inner) := s.stage;
    var t := s.(phaseActive := false,
                timers := s.timers.Cancel(PhaseTimer).Cancel(PhaseDrainTimer));
    PendingAfterPhase(s, t);
    if inner.Draining? {
      LoopSettlesInv(c, t, outer, Some(DeadlineFailure));
    } else if outcome.Rejected? {
      LoopSettlesInv(c, t, outer, outcome.Reason());
    } else {
      StartPhaseInv(c, t, k + 1);
    }
  }

  lemma StepInv(c: Timeouts, s: State, e: Event)
    requires c.Headroom() && Inv(c, s) && Enabled(s, e)
    ensures Inv(c, Step(c, s, e))
  {
    match e
    case Advance(time) =>
    case Fire(timer) =>
      if s.stage.Working? {
        FireWorkingInv(c, s, timer);
      } else {
        FireCleaningInv(c, s, timer);
      }
    case PhaseSettles(outcome) =>
      PhaseDoneInv(c, s, outcome);
    case StrayPhaseSettles =>
    case CleanupSettles(outcome) =>
  }

  lemma {:induction false} ExecInv(c: Timeouts, es: seq<Event>)
    requires c.Headroom() && Exec(c, es).Some?
    ensures Inv(c, Exec(c, es).value)
  {
    if es == [] {
      StartInv(c);
    } else {
      ExecInv(c, es[..|es| - 1]);
      StepInv(c, Exec(c, es[..|es| - 1]).value, es[|es| - 1]);
    }
  }
}
