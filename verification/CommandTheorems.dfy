/** What every interleaving of timers, signal settlements and child events keeps. */
module CommandTheorems {
  import opened Numbers
  import opened Options
  import opened CommandSupervision

  /** The state after a run of events, or None when one of them was not possible. */
  function Exec(c: Command, exposed: bool, es: seq<Event>): Option<Run> {
    if es == [] then Some(Spawned(c, exposed))
    else
      match Exec(c, exposed, es[..|es| - 1])
      case None => None
      case Some(r) => if Enabled(c, r, es[|es| - 1]) then Some(Step(c, r, es[|es| - 1])) else None
  }

  /** While unsettled, exactly the timers that have not fired are pending. */
  ghost predicate TimersInv(c: Command, r: Run) {
    && r.timers == Timers(!r.soft.started, !r.kill.started, true)
    && (!r.soft.started ==> r.now <= Max(0, c.SoftDeadline()))
    && (!r.kill.started ==> r.now <= Max(0, c.KillDeadline()))
    && r.now <= Max(0, c.timeoutMs)
    && (r.timedOut <==> r.soft.started || r.kill.started)
    && (r.kill.started ==> c.KillDeadline() <= r.now)
    && (r.kill.started ==> r.soft.started)
  }

  ghost predicate Inv(c: Command, r: Run) {
    && 0 <= r.now
    && r.promise.calls == (if r.settled then 1 else 0)
    && (r.settled <==> r.promise.first.Some?)
    && (r.soft.settled ==> r.soft.started)
    && (r.kill.settled ==> r.kill.started)
    && (r.kill.failed ==> r.kill.settled)
    && if r.settled then
         && r.timers == Timers(false, false, false)
         && r.promise.first.value.at <= r.now
         && r.promise.first.value.at <= Max(0, c.timeoutMs)
         && (1 <= c.timeoutMs && IsTimeout(r.promise.first.value.result) ==>
               c.KillDeadline() <= r.promise.first.value.at)
       else
         TimersInv(c, r)
  }

  predicate IsTimeout(result: Result) {
    result.Rejected? && result.error.TimedOut?
  }

  lemma FireInv(c: Command, r: Run, k: TimerKind)
    requires Inv(c, r) && Enabled(c, r, Fire(k))
    ensures Inv(c, FireTimer(r, k))
  {
  }

  lemma SignalInv(c: Command, r: Run, ok: bool, kill: bool)
    requires Inv(c, r) && (if kill then r.kill.started && !r.kill.settled else r.soft.started && !r.soft.settled)
    ensures Inv(c, SignalSettles(r, ok, kill))
  {
  }

  lemma CloseInv(c: Command, r: Run, exit: Exit)
    requires Inv(c, r)
    ensures Inv(c, Close(c, r, exit))
  {
  }

  lemma StepInv(c: Command, r: Run, e: Event)
    requires Inv(c, r) && Enabled(c, r, e)
    ensures Inv(c, Step(c, r, e))
  {
    match e
    case Fire(k) => FireInv(c, r, k);
    case SoftSettles(ok) => SignalInv(c, r, ok, false);
    case KillSettles(ok) => SignalInv(c, r, ok, true);
    case ChildCloses(exit) => CloseInv(c, r, exit);
    case _ =>
  }

  lemma {:induction false} ExecInv(c: Command, exposed: bool, es: seq<Event>)
    requires Exec(c, exposed, es).Some?
    ensures Inv(c, Exec(c, exposed, es).value)
  {
    if es != [] {
      ExecInv(c, exposed, es[..|es| - 1]);
      StepInv(c, Exec(c, exposed, es[..|es| - 1]).value, es[|es| - 1]);
    }
  }

  function Before(c: Command, exposed: bool, es: seq<Event>, i: nat): Option<Run>
    requires i <= |es|
  {
    Exec(c, exposed, es[..i])
  }

  // ---------- one settlement, in time ----------

  /** The promise is settled at most once, by the hard bound, and a run whose clock has
      passed the bound has settled it. */
  lemma SettlesOnceInTime(c: Command, exposed: bool, es: seq<Event>)
    requires Exec(c, exposed, es).Some?
    ensures var r := Exec(c, exposed, es).value;
            && r.promise.calls <= 1
            && (r.promise.first.Some? ==> r.promise.first.value.at <= Max(0, c.timeoutMs))
            && (r.now > Max(0, c.timeoutMs) ==> r.promise.calls == 1)
  {
    ExecInv(c, exposed, es);
  }

  /** An unsettled run can always go on without the child: a timer is due or time passes. */
  lemma NeverStuck(c: Command, exposed: bool, es: seq<Event>)
    requires Exec(c, exposed, es).Some? && !Exec(c, exposed, es).value.settled
    ensures exists e: Event :: (e.Fire? || e.Advance?) && Enabled(c, Exec(c, exposed, es).value, e)
  {
    ExecInv(c, exposed, es);
    var r := Exec(c, exposed, es).value;
    var k := if r.timers.soft && c.SoftDeadline() <= c.timeoutMs then SoftTimer
             else if r.timers.kill && c.KillDeadline() <= c.timeoutMs then KillTimer
             else HardTimer;
    assert IsNext(c, r, k);
    if c.Due(k) <= r.now {
      assert Enabled(c, r, Fire(k));
    } else {
      assert Enabled(c, r, Advance(c.Due(k)));
    }
  }

  /** Nothing that happens later touches a settled promise. */
  lemma {:induction false} LateEventsChangeNothing(c: Command, exposed: bool, es: seq<Event>, i: nat)
    requires i <= |es| && Exec(c, exposed, es).Some?
    ensures Before(c, exposed, es, i).Some?
    ensures Before(c, exposed, es, i).value.settled ==>
              && Exec(c, exposed, es).value.settled
              && Exec(c, exposed, es).value.promise == Before(c, exposed, es, i).value.promise
    decreases |es|
  {
    if i == |es| {
      assert es[..i] == es;
    } else {
      var front := es[..|es| - 1];
      LateEventsChangeNothing(c, exposed, front, i);
      assert front[..i] == es[..i];
    }
  }

  // ---------- what the child tells ----------

  /** No timer has fired and the child has reported neither an error nor a close. */
  predicate Quiet(es: seq<Event>) {
    forall e <- es :: !e.Fire? && !e.ChildErrs? && !e.ChildCloses?
  }

  function Received(es: seq<Event>): seq<Bytes> {
    if es == [] then []
    else
      var e := es[|es| - 1];
      Received(es[..|es| - 1]) + if e.Data? then [e.chunk] else []
  }

  predicate CaptureFine(c: Command, exposed: bool, es: seq<Event>) {
    c.captureStdout ==>
      exposed && StdoutFails !in es && |Concat(Received(es))| <= c.maxOutputBytes
  }

  function Output(c: Command, es: seq<Event>): Option<Bytes> {
    if c.captureStdout then Some(Concat(Received(es))) else None
  }

  /** The child closes with status 0 at event i, before any timer, in good order. */
  predicate CleanClose(c: Command, exposed: bool, es: seq<Event>, i: nat) {
    i < |es| && es[i] == ChildCloses(Code(0)) && Quiet(es[..i]) && CaptureFine(c, exposed, es[..i])
  }

  ghost predicate CaptureInv(c: Command, exposed: bool, es: seq<Event>, r: Run) {
    && r.capture.bytes == |Concat(Received(es))|
    && (!c.captureStdout ==> Received(es) == [])
    && (r.capture.exceeded <==> c.captureStdout && r.capture.bytes > c.maxOutputBytes)
    && (!r.capture.exceeded ==> r.capture.chunks == Received(es))
    && (r.capture.failed <==> c.captureStdout && (!exposed || StdoutFails in es))
  }

  lemma ConcatSnoc(chunks: seq<Bytes>, chunk: Bytes)
    ensures Concat(chunks + [chunk]) == Concat(chunks) + chunk
  {
    assert (chunks + [chunk])[..|chunks|] == chunks;
  }

  lemma CaptureStep(c: Command, r: Run, e: Event)
    requires Enabled(c, r, e)
    ensures Step(c, r, e).capture ==
              if e.Data? then Receive(c, r.capture, e.chunk)
              else if e.StdoutFails? then r.capture.(failed := true)
              else r.capture
  {
  }

  lemma {:induction false} CaptureHolds(c: Command, exposed: bool, es: seq<Event>)
    requires c.BoundAccepted() && Exec(c, exposed, es).Some?
    ensures CaptureInv(c, exposed, es, Exec(c, exposed, es).value)
  {
    if es != [] {
      var front, e := es[..|es| - 1], es[|es| - 1];
      CaptureHolds(c, exposed, front);
      CaptureStep(c, Exec(c, exposed, front).value, e);
      assert StdoutFails in es <==> StdoutFails in front || e == StdoutFails by {
        assert es == front + [e];
      }
      if e.Data? {
        ConcatSnoc(Received(front), e.chunk);
      } else {
        assert Received(es) == Received(front);
      }
    }
  }

  lemma QuietStep(c: Command, r: Run, e: Event)
    requires Inv(c, r) && Enabled(c, r, e)
    ensures !Step(c, r, e).settled && !Step(c, r, e).timedOut <==>
              !r.settled && !r.timedOut && !e.Fire? && !e.ChildErrs? && !e.ChildCloses?
  {
  }

  lemma {:induction false} QuietIff(c: Command, exposed: bool, es: seq<Event>)
    requires Exec(c, exposed, es).Some?
    ensures Quiet(es) <==> !Exec(c, exposed, es).value.settled && !Exec(c, exposed, es).value.timedOut
  {
    if es != [] {
      var front, e := es[..|es| - 1], es[|es| - 1];
      QuietIff(c, exposed, front);
      ExecInv(c, exposed, front);
      QuietStep(c, Exec(c, exposed, front).value, e);
      assert Quiet(es) <==> Quiet(front) && !e.Fire? && !e.ChildErrs? && !e.ChildCloses? by {
        assert es == front + [e];
      }
    }
  }

  function Outcome(c: Command, exposed: bool, es: seq<Event>): Option<Result> {
    match Exec(c, exposed, es)
    case None => None
    case Some(r) => if r.promise.first.Some? then Some(r.promise.first.value.result) else None
  }

  /** What a child that has been quiet so far tells by its next event, if that ends the
      command. */
  function Told(c: Command, exposed: bool, soFar: seq<Event>, e: Event): Option<Result> {
    match e
    case ChildErrs => Some(Rejected(ChildFailed))
    case ChildCloses(Code(0)) =>
      if c.captureStdout && (!exposed || StdoutFails in soFar) then Some(Rejected(CaptureFailed))
      else if c.captureStdout && |Concat(Received(soFar))| > c.maxOutputBytes then Some(Rejected(CaptureExceeded))
      else Some(Resolved(Output(c, soFar)))
    case ChildCloses(exit) => Some(Rejected(ExitFailed(exit, exit == Code(86))))
    case _ => None
  }

  predicate TellsAt(c: Command, exposed: bool, es: seq<Event>, i: nat, result: Result) {
    i < |es| && Quiet(es[..i]) && Told(c, exposed, es[..i], es[i]) == Some(result)
  }

  predicate HasResult(r: Run, result: Result) {
    r.promise.first.Some? && r.promise.first.value.result == result
  }

  lemma ToldStep(c: Command, exposed: bool, soFar: seq<Event>, r: Run, e: Event, result: Result)
    requires Inv(c, r) && Enabled(c, r, e) && CaptureInv(c, exposed, soFar, r)
    requires Quiet(soFar) <==> !r.settled && !r.timedOut
    requires !IsTimeout(result)
    ensures HasResult(Step(c, r, e), result) <==>
              HasResult(r, result) || (Quiet(soFar) && Told(c, exposed, soFar, e) == Some(result))
  {
    hide Concat, Received, Quiet;
  }

  lemma TellsSnoc(c: Command, exposed: bool, front: seq<Event>, e: Event, result: Result)
    ensures (exists i: nat :: TellsAt(c, exposed, front + [e], i, result)) <==>
              || (exists i: nat :: TellsAt(c, exposed, front, i, result))
              || (Quiet(front) && Told(c, exposed, front, e) == Some(result))
  {
    hide Quiet, Told;
    var es, n := front + [e], |front|;
    assert es[..n] == front;
    assert forall i :: 0 <= i < n ==> es[..i] == front[..i] && es[i] == front[i];
    if i: nat :| TellsAt(c, exposed, front, i, result) {
      assert TellsAt(c, exposed, es, i, result);
    }
    if Quiet(front) && Told(c, exposed, front, e) == Some(result) {
      assert TellsAt(c, exposed, es, n, result);
    }
    if i: nat :| TellsAt(c, exposed, es, i, result) {
      assert i < n ==> TellsAt(c, exposed, front, i, result);
    }
  }

  lemma NothingTold(c: Command, exposed: bool, result: Result)
    ensures Outcome(c, exposed, []) == None && forall i: nat :: !TellsAt(c, exposed, [], i, result)
  {
  }

  /** The command reports a result other than a timeout exactly when the child tells it: by
      an error, by a failing exit, which is unsafe if its status is 86, by a clean exit after
      its captured stdout failed or grew too long, or by a clean exit in good order; in each
      case before the first timer and before any other error or close. */
  lemma {:induction false} ReportsIff(c: Command, exposed: bool, es: seq<Event>, result: Result)
    requires c.BoundAccepted() && Exec(c, exposed, es).Some? && !IsTimeout(result)
    ensures Outcome(c, exposed, es) == Some(result) <==> exists i: nat :: TellsAt(c, exposed, es, i, result)
  {
    hide Quiet, Told, CaptureInv, Inv, Enabled, Step, TellsAt;
    if es == [] {
      NothingTold(c, exposed, result);
    } else {
      var front, e := es[..|es| - 1], es[|es| - 1];
      ReportsIff(c, exposed, front, result);
      ExecInv(c, exposed, front);
      QuietIff(c, exposed, front);
      CaptureHolds(c, exposed, front);
      ToldStep(c, exposed, front, Exec(c, exposed, front).value, e, result);
      TellsSnoc(c, exposed, front, e, result);
      assert es == front + [e];
    }
  }

  /** A failing exit is what the command reports exactly when it comes before the first timer
      and before any child error; it forbids follow-on cleanup exactly for status 86. */
  lemma ExitFailsIff(c: Command, exposed: bool, es: seq<Event>, exit: Exit, unsafe: bool)
    requires c.BoundAccepted() && Exec(c, exposed, es).Some?
    ensures Outcome(c, exposed, es) == Some(Rejected(ExitFailed(exit, unsafe))) <==>
              && exit != Code(0) && (unsafe <==> exit == Code(86))
              && exists i :: 0 <= i < |es| && es[i] == ChildCloses(exit) && Quiet(es[..i])
  {
    hide Quiet;
    var result := Rejected(ExitFailed(exit, unsafe));
    ReportsIff(c, exposed, es, result);
    if i :| 0 <= i < |es| && es[i] == ChildCloses(exit) && Quiet(es[..i]) {
      if exit != Code(0) && (unsafe <==> exit == Code(86)) {
        assert TellsAt(c, exposed, es, i, result);
      }
    }
  }

  /** The command succeeds, with a given output, exactly when the child closes with status 0
      before the first timer and before any child error, its captured stdout is intact and
      within the bound, and that is the output. */
  lemma SucceedsIff(c: Command, exposed: bool, es: seq<Event>, output: Option<Bytes>)
    requires c.BoundAccepted() && Exec(c, exposed, es).Some?
    ensures Outcome(c, exposed, es) == Some(Resolved(output)) <==>
              exists i: nat :: CleanClose(c, exposed, es, i) && output == Output(c, es[..i])
  {
    hide Quiet;
    ReportsIff(c, exposed, es, Resolved(output));
    if i: nat :| CleanClose(c, exposed, es, i) && output == Output(c, es[..i]) {
      assert TellsAt(c, exposed, es, i, Resolved(output));
    }
    if i: nat :| TellsAt(c, exposed, es, i, Resolved(output)) {
      assert CleanClose(c, exposed, es, i);
    }
  }

  /** A clean close comes no later than the soft deadline. */
  lemma SuccessIsBeforeTheSoftDeadline(c: Command, exposed: bool, es: seq<Event>, i: nat)
    requires c.BoundAccepted() && Exec(c, exposed, es).Some? && CleanClose(c, exposed, es, i)
    ensures Before(c, exposed, es, i).Some? && Before(c, exposed, es, i).value.now <= c.SoftDeadline()
  {
    LateEventsChangeNothing(c, exposed, es, i);
    QuietIff(c, exposed, es[..i]);
    ExecInv(c, exposed, es[..i]);
  }

  // ---------- timeouts ----------

  ghost predicate SettlesNow(c: Command, exposed: bool, es: seq<Event>) {
    && es != [] && Exec(c, exposed, es).Some? && Exec(c, exposed, es).value.settled
    && Exec(c, exposed, es[..|es| - 1]).Some? && !Exec(c, exposed, es[..|es| - 1]).value.settled
  }

  ghost predicate ChildClosed(es: seq<Event>) {
    exists e <- es :: e.ChildCloses?
  }

  ghost predicate SoftSignalSettled(es: seq<Event>) {
    exists e <- es :: e.SoftSettles?
  }

  ghost predicate FlagsInv(es: seq<Event>, r: Run) {
    && (r.child.closed <==> ChildClosed(es))
    && (r.child.errorSeen <==> ChildErrs in es)
    && (r.soft.started <==> Fire(SoftTimer) in es) && (r.kill.started <==> Fire(KillTimer) in es)
    && (r.soft.settled <==> SoftSignalSettled(es))
    && (r.kill.settled <==> KillSettles(true) in es || KillSettles(false) in es)
    && (r.kill.settled && !r.kill.failed <==> KillSettles(true) in es)
  }

  /** Something went wrong with ending the child: a signal could not be sent, or the child
      reported an error. */
  predicate Disturbed(es: seq<Event>) {
    SoftSettles(false) in es || KillSettles(false) in es || ChildErrs in es
  }

  ghost predicate CauseInv(es: seq<Event>, r: Run) {
    r.timedOut || !r.settled ==> (r.terminationFailed <==> Disturbed(es))
  }

  lemma CauseStep(c: Command, front: seq<Event>, r: Run, e: Event)
    requires Inv(c, r) && Enabled(c, r, e) && CauseInv(front, r)
    ensures CauseInv(front + [e], Step(c, r, e))
  {
  }

  lemma {:induction false} CauseHolds(c: Command, exposed: bool, es: seq<Event>)
    requires Exec(c, exposed, es).Some?
    ensures CauseInv(es, Exec(c, exposed, es).value)
  {
    if es != [] {
      var front, e := es[..|es| - 1], es[|es| - 1];
      CauseHolds(c, exposed, front);
      ExecInv(c, exposed, front);
      CauseStep(c, front, Exec(c, exposed, front).value, e);
      assert es == front + [e];
    }
  }

  lemma FlagsStep(c: Command, r: Run, e: Event)
    requires Inv(c, r) && Enabled(c, r, e)
    ensures Step(c, r, e).child.closed <==> r.child.closed || e.ChildCloses?
    ensures Step(c, r, e).child.errorSeen <==> r.child.errorSeen || e.ChildErrs?
    ensures Step(c, r, e).soft.started <==> r.soft.started || e == Fire(SoftTimer)
    ensures Step(c, r, e).kill.started <==> r.kill.started || e == Fire(KillTimer)
    ensures Step(c, r, e).kill.settled <==> r.kill.settled || e.KillSettles?
    ensures Step(c, r, e).soft.settled <==> r.soft.settled || e.SoftSettles?
    ensures Step(c, r, e).kill.settled && !Step(c, r, e).kill.failed <==>
              (r.kill.settled && !r.kill.failed) || e == KillSettles(true)
  {
    match e
    case Fire(k) => FireFlags(c, r, k);
    case SoftSettles(ok) => SignalFlags(r, ok, false);
    case KillSettles(ok) => SignalFlags(r, ok, true);
    case ChildCloses(exit) => CloseFlags(c, r, exit);
    case _ =>
  }

  lemma FireFlags(c: Command, r: Run, k: TimerKind)
    requires Inv(c, r) && Enabled(c, r, Fire(k))
    ensures var t := FireTimer(r, k);
            && t.child == r.child
            && t.soft == (if k == SoftTimer then r.soft.(started := true) else r.soft)
            && t.kill == (if k == KillTimer then r.kill.(started := true) else r.kill)
  {
  }

  lemma SignalFlags(r: Run, ok: bool, kill: bool)
    ensures var t := SignalSettles(r, ok, kill);
            && t.child == r.child
            && t.kill == (if kill then r.kill.(settled := true, failed := !ok) else r.kill)
            && t.soft == (if kill then r.soft else r.soft.(settled := true))
  {
  }

  lemma CloseFlags(c: Command, r: Run, exit: Exit)
    ensures Close(c, r, exit).child == r.child.(closed := true)
    ensures Close(c, r, exit).soft == r.soft && Close(c, r, exit).kill == r.kill
  {
  }

  lemma {:induction false} FlagsHold(c: Command, exposed: bool, es: seq<Event>)
    requires Exec(c, exposed, es).Some?
    ensures FlagsInv(es, Exec(c, exposed, es).value)
  {
    if es != [] {
      var front, e := es[..|es| - 1], es[|es| - 1];
      FlagsHold(c, exposed, front);
      ExecInv(c, exposed, front);
      FlagsStep(c, Exec(c, exposed, front).value, e);
      HistorySnoc(front, e);
      assert es == front + [e];
    }
  }

  lemma HistorySnoc(front: seq<Event>, e: Event)
    ensures ChildClosed(front + [e]) <==> ChildClosed(front) || e.ChildCloses?
    ensures SoftSignalSettled(front + [e]) <==> SoftSignalSettled(front) || e.SoftSettles?
  {
    assert e in front + [e] && forall x <- front :: x in front + [e];
  }

  /** The child and the signals are as free as they are in fact: the child may report an error
      and a close at any time, each once, and a signal settles once at any time after its timer. */
  lemma SurroundingsAreFree(c: Command, exposed: bool, es: seq<Event>)
    requires Exec(c, exposed, es).Some?
    ensures var r := Exec(c, exposed, es).value;
            && (Enabled(c, r, ChildErrs) <==> ChildErrs !in es)
            && (forall exit :: Enabled(c, r, ChildCloses(exit)) <==> !ChildClosed(es))
            && (forall ok :: Enabled(c, r, SoftSettles(ok)) <==> Fire(SoftTimer) in es && !SoftSignalSettled(es))
            && (forall ok :: Enabled(c, r, KillSettles(ok)) <==>
                  Fire(KillTimer) in es && KillSettles(true) !in es && KillSettles(false) !in es)
  {
    FlagsHold(c, exposed, es);
  }

  lemma TimeoutStep(c: Command, r: Run, e: Event)
    requires Inv(c, r) && Enabled(c, r, e) && !r.settled && Step(c, r, e).settled
    ensures Step(c, r, e).promise.first.Some?
    ensures var result := Step(c, r, e).promise.first.value.result;
            && (IsTimeout(result) <==> Step(c, r, e).timedOut)
            && (IsTimeout(result) ==> (result.error.hasCause <==> Step(c, r, e).terminationFailed))
            && (IsTimeout(result) ==>
                  (result.error.unsafe <==>
                     !(Step(c, r, e).child.closed && Step(c, r, e).soft.settled &&
                       Step(c, r, e).kill.settled && !Step(c, r, e).kill.failed)))
  {
  }

  /** A run that has timed out reports so, and as safe for follow-on cleanup exactly when, by
      then, the child has closed, both signals have settled and the kill succeeded; the report
      has a cause exactly when something went wrong with ending the child. */
  lemma TimeoutVerdict(c: Command, exposed: bool, es: seq<Event>)
    requires SettlesNow(c, exposed, es) && Exec(c, exposed, es).value.timedOut
    ensures exists hasCause, unsafe ::
              && Outcome(c, exposed, es) == Some(Rejected(TimedOut(unsafe, hasCause)))
              && (unsafe <==> !(ChildClosed(es) && SoftSignalSettled(es) && KillSettles(true) in es))
              && (hasCause <==> Disturbed(es))
  {
    var front := es[..|es| - 1];
    ExecInv(c, exposed, front);
    FlagsHold(c, exposed, es);
    CauseHolds(c, exposed, es);
    TimeoutStep(c, Exec(c, exposed, front).value, es[|es| - 1]);
    var error := Outcome(c, exposed, es).value.error;
    assert Outcome(c, exposed, es) == Some(Rejected(TimedOut(error.unsafe, error.hasCause)));
  }

  /** A timed-out command never settles before its kill timer, even when the child has
      already closed. */
  lemma TimeoutWaitsForKill(c: Command, exposed: bool, es: seq<Event>)
    requires 1 <= c.timeoutMs && Exec(c, exposed, es).Some?
    ensures var first := Exec(c, exposed, es).value.promise.first;
            first.Some? && IsTimeout(first.value.result) ==>
              c.KillDeadline() <= first.value.at <= c.timeoutMs
  {
    ExecInv(c, exposed, es);
  }

  // ---------- settlement without the child ----------

  predicate OfTimeOnly(e: Event) {
    e.Fire? || e.Advance?
  }

  predicate GoesOnByTime(es: seq<Event>, longer: seq<Event>) {
    es <= longer && forall i :: |es| <= i < |longer| ==> OfTimeOnly(longer[i])
  }

  function PendingTimers(t: Timers): nat {
    (if t.soft then 1 else 0) + (if t.kill then 1 else 0) + (if t.hard then 1 else 0)
  }

  function TimeLeft(c: Command, r: Run): int {
    Max(0, c.timeoutMs) - r.now + PendingTimers(r.timers)
  }

  /** An event of time brings an unsettled run closer to its end, or settles it. */
  lemma TimeRunsOut(c: Command, r: Run, e: Event)
    requires Inv(c, r) && !r.settled && OfTimeOnly(e) && Enabled(c, r, e)
    ensures 0 <= TimeLeft(c, r) && (Step(c, r, e).settled || TimeLeft(c, Step(c, r, e)) < TimeLeft(c, r))
  {
  }

  /** From every reachable state, whatever the child and the signals do not do: timers and the
      clock alone settle the command, by its hard bound. */
  lemma {:induction false} SettlesByTimeAlone(c: Command, exposed: bool, es: seq<Event>, r: Run)
    returns (longer: seq<Event>, t: Run)
    requires Exec(c, exposed, es) == Some(r)
    ensures GoesOnByTime(es, longer) && Exec(c, exposed, longer) == Some(t)
    ensures t.promise.first.Some? && t.promise.first.value.at <= Max(0, c.timeoutMs)
    decreases if r.settled then -1 else TimeLeft(c, r)
  {
    ExecInv(c, exposed, es);
    longer, t := es, r;
    if !r.settled {
      NeverStuck(c, exposed, es);
      var e: Event :| (e.Fire? || e.Advance?) && Enabled(c, r, e);
      TimeRunsOut(c, r, e);
      assert (es + [e])[..|es|] == es;
      StepInv(c, r, e);
      longer, t := SettlesByTimeAlone(c, exposed, es + [e], Step(c, r, e));
    }
  }

  // ---------- the callbacks, in any order ----------

  /** The callbacks of one call, run in the order of any list of possible events, leave the
      closure in exactly the state the theorems are about. */
  method RunCallbacks(c: Command, exposed: bool, es: seq<Event>) returns (run: CommandRun)
    requires c.BoundAccepted() && Exec(c, exposed, es).Some?
    ensures fresh(run) && run.command == c && Exec(c, exposed, es) == Some(run.State())
  {
    run := new CommandRun(c, exposed);
    assert es[..0] == [];
    for i := 0 to |es|
      invariant fresh(run) && run.command == c && Exec(c, exposed, es[..i]) == Some(run.State())
    {
      PrefixRuns(c, exposed, es, i);
      run.Handle(es[i]);
    }
    assert es[..|es|] == es;
  }

  lemma {:induction false} PrefixRuns(c: Command, exposed: bool, es: seq<Event>, i: nat)
    requires i < |es| && Exec(c, exposed, es).Some? && Exec(c, exposed, es[..i]).Some?
    ensures Enabled(c, Exec(c, exposed, es[..i]).value, es[i])
    ensures Exec(c, exposed, es[..i + 1]) == Some(Step(c, Exec(c, exposed, es[..i]).value, es[i]))
    decreases |es|
  {
    var front := es[..|es| - 1];
    if i == |es| - 1 {
      assert es[..i + 1] == es;
    } else {
      assert front[..i] == es[..i] && front[..i + 1] == es[..i + 1] && front[i] == es[i];
      PrefixRuns(c, exposed, front, i);
    }
  }
}
