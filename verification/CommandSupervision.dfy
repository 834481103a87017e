/** Supervision of one child process under a hard time bound: the transition functions,
    and the object whose callbacks carry them out. */
module CommandSupervision {
  import opened Numbers
  import opened Options

  const TERMINATION_GRACE_MS := 5_000
  const KILL_SETTLEMENT_MS := 3_000
  const CLEANUP_UNSAFE_EXIT_CODE := 86

  type Bytes = seq<int>

  datatype Command = Command(timeoutMs: int, captureStdout: bool, maxOutputBytes: int) {
    function SoftDeadline(): int { Max(1, timeoutMs - TERMINATION_GRACE_MS) }

    function KillDeadline(): int { Max(SoftDeadline(), timeoutMs - KILL_SETTLEMENT_MS) }

    function Due(k: TimerKind): int {
      match k
      case SoftTimer => SoftDeadline()
      case KillTimer => KillDeadline()
      case HardTimer => timeoutMs
    }

    predicate BoundAccepted() { captureStdout ==> 1 <= maxOutputBytes }
  }

  /** In the order in which they are scheduled. */
  datatype TimerKind = SoftTimer | KillTimer | HardTimer

  /** Which timers are still pending; each is scheduled once, at time 0. */
  datatype Timers = Timers(soft: bool, kill: bool, hard: bool) {
    predicate Pending(k: TimerKind) {
      match k
      case SoftTimer => soft
      case KillTimer => kill
      case HardTimer => hard
    }

    function Cancel(k: TimerKind): Timers {
      match k
      case SoftTimer => this.(soft := false)
      case KillTimer => this.(kill := false)
      case HardTimer => this.(hard := false)
    }
  }

  datatype Exit = Code(status: int) | Killed

  datatype RunError =
    | ChildFailed
    | ExitFailed(exit: Exit, exitUnsafe: bool)
    | CaptureFailed
    | CaptureExceeded
    | TimedOut(unsafe: bool, hasCause: bool)

  datatype Result = Resolved(output: Option<Bytes>) | Rejected(error: RunError)

  datatype Settlement = Settlement(result: Result, at: int)

  /** How often resolve or reject was called; the first call decides the promise. */
  datatype Promise = Promise(calls: nat, first: Option<Settlement>) {
    function Call(result: Result, at: int): Promise {
      Promise(calls + 1, if calls == 0 then Some(Settlement(result, at)) else first)
    }
  }

  datatype Run = Run(
    now: int,
    timers: Timers,
    settled: bool,
    promise: Promise,
    timedOut: bool,
    terminationFailed: bool,
    child: Child,
    soft: Signal,
    kill: Signal,
    capture: Capture
  )

  datatype Child = Child(closed: bool, errorSeen: bool)

  /** One requested signal: started by its timer, settled by the operating system. */
  datatype Signal = Signal(started: bool, settled: bool, failed: bool)

  /** What has been read of the child's stdout. */
  datatype Capture = Capture(bytes: nat, exceeded: bool, failed: bool, chunks: seq<Bytes>)

  datatype Event =
    | Advance(time: int)
    | Fire(timer: TimerKind)
    | SoftSettles(softOk: bool)
    | KillSettles(killOk: bool)
    | Data(chunk: Bytes)
    | StdoutFails
    | ChildErrs
    | ChildCloses(exit: Exit)

  /** The state right after a successful spawn. */
  function Spawned(c: Command, stdoutExposed: bool): Run {
    Run(0, Timers(true, true, true), false, Promise(0, None), false, false,
        Child(false, false), Signal(false, false, false), Signal(false, false, false),
        Capture(0, false, c.captureStdout && !stdoutExposed, []))
  }

  function Finish(r: Run, result: Result): Run {
    if r.settled then r
    else r.(settled := true,
            promise := r.promise.Call(result, r.now),
            timers := Timers(false, false, false))
  }

  function FinishTimedOutIfSettled(r: Run): Run {
    if r.timedOut && r.child.closed && r.soft.started && r.soft.settled && r.kill.started && r.kill.settled
    then Finish(r, Rejected(TimedOut(r.kill.failed, r.terminationFailed)))
    else r
  }

  function FireTimer(r: Run, k: TimerKind): Run {
    var fired := r.(timers := r.timers.Cancel(k));
    if r.settled then fired
    else
      match k
      case SoftTimer => fired.(timedOut := true, soft := r.soft.(started := true))
      case KillTimer => fired.(timedOut := true, kill := r.kill.(started := true))
      case HardTimer =>
        var unsafe := !r.child.closed || !r.soft.started || !r.soft.settled
                      || !r.kill.started || !r.kill.settled || r.kill.failed;
        Finish(fired.(timedOut := true), Rejected(TimedOut(unsafe, r.terminationFailed)))
  }

  function SignalSettles(r: Run, ok: bool, kill: bool): Run {
    var noted := r.(terminationFailed := r.terminationFailed || !ok);
    FinishTimedOutIfSettled(if kill then noted.(kill := r.kill.(settled := true, failed := !ok))
                            else noted.(soft := r.soft.(settled := true)))
  }

  function Receive(c: Command, capture: Capture, chunk: Bytes): Capture {
    var counted := capture.(bytes := capture.bytes + |chunk|);
    if counted.bytes > c.maxOutputBytes then counted.(exceeded := true)
    else counted.(chunks := capture.chunks + [chunk])
  }

  function ReceiveData(c: Command, r: Run, chunk: Bytes): Run {
    r.(capture := Receive(c, r.capture, chunk))
  }

  function StdoutError(r: Run): Run {
    r.(capture := r.capture.(failed := true))
  }

  function Concat(chunks: seq<Bytes>): Bytes {
    if chunks == [] then [] else Concat(chunks[..|chunks| - 1]) + chunks[|chunks| - 1]
  }

  function Close(c: Command, r: Run, exit: Exit): Run {
    var closed := r.(child := r.child.(closed := true));
    if r.timedOut then FinishTimedOutIfSettled(closed)
    else if exit != Code(0) then
      Finish(closed, Rejected(ExitFailed(exit, exit == Code(CLEANUP_UNSAFE_EXIT_CODE))))
    else if r.capture.failed then Finish(closed, Rejected(CaptureFailed))
    else if r.capture.exceeded then Finish(closed, Rejected(CaptureExceeded))
    else Finish(closed, Resolved(if c.captureStdout then Some(Concat(r.capture.chunks)) else None))
  }

  function ChildError(r: Run): Run {
    var seen := r.(child := r.child.(errorSeen := true));
    if r.timedOut then seen.(terminationFailed := true) else Finish(seen, Rejected(ChildFailed))
  }

  /** Timer j does not go before timer k: ties fire in scheduling order. */
  predicate NotBefore(c: Command, r: Run, k: TimerKind, j: TimerKind) {
    r.timers.Pending(j) ==>
      || c.Due(k) < c.Due(j)
      || (c.Due(k) == c.Due(j) && !(j.SoftTimer? && !k.SoftTimer?) && !(k.HardTimer? && !j.HardTimer?))
  }

  predicate IsNext(c: Command, r: Run, k: TimerKind) {
    && r.timers.Pending(k)
    && NotBefore(c, r, k, SoftTimer) && NotBefore(c, r, k, KillTimer) && NotBefore(c, r, k, HardTimer)
  }

  /** The clock cannot pass a pending timer. */
  predicate MayAdvanceTo(c: Command, r: Run, time: int) {
    && (r.timers.soft ==> time <= c.SoftDeadline())
    && (r.timers.kill ==> time <= c.KillDeadline())
    && (r.timers.hard ==> time <= c.timeoutMs)
  }

  /** What the event loop and the child may do next; each signal settles once, and the
      child reports an error or a close at most once. */
  predicate Enabled(c: Command, r: Run, e: Event) {
    match e
    case Advance(time) => r.now < time && MayAdvanceTo(c, r, time)
    case Fire(k) => IsNext(c, r, k) && c.Due(k) <= r.now
    case SoftSettles(_) => r.soft.started && !r.soft.settled
    case KillSettles(_) => r.kill.started && !r.kill.settled
    case Data(_) => c.captureStdout
    case StdoutFails => c.captureStdout
    case ChildErrs => !r.child.errorSeen
    case ChildCloses(_) => !r.child.closed
  }

  function Step(c: Command, r: Run, e: Event): Run
    requires Enabled(c, r, e)
  {
    match e
    case Advance(time) => r.(now := time)
    case Fire(k) => FireTimer(r, k)
    case SoftSettles(ok) => SignalSettles(r, ok, false)
    case KillSettles(ok) => SignalSettles(r, ok, true)
    case Data(chunk) => ReceiveData(c, r, chunk)
    case StdoutFails => StdoutError(r)
    case ChildErrs => ChildError(r)
    case ChildCloses(exit) => Close(c, r, exit)
  }

  /** The closure state of one call, and the callbacks that update it. */
  class CommandRun {
    const command: Command
    var now: int
    var timers: Timers
    var settled: bool
    var promise: Promise
    var timedOut: bool
    var terminationFailed: bool
    var childClosed: bool
    var errorSeen: bool
    var softStarted: bool
    var softSettled: bool
    var killStarted: bool
    var killSettled: bool
    var killFailed: bool
    var capturedBytes: nat
    var outputExceeded: bool
    var outputFailed: bool
    var chunks: seq<Bytes>

    function State(): Run
      reads this
    {
      Run(now, timers, settled, promise, timedOut, terminationFailed, Child(childClosed, errorSeen),
          Signal(softStarted, softSettled, false), Signal(killStarted, killSettled, killFailed),
          Capture(capturedBytes, outputExceeded, outputFailed, chunks))
    }

    constructor (c: Command, stdoutExposed: bool)
      requires c.BoundAccepted()
      ensures command == c && State() == Spawned(c, stdoutExposed)
    {
      command := c;
      now, settled, promise := 0, false, Promise(0, None);
      timedOut, terminationFailed, childClosed, errorSeen := false, false, false, false;
      softStarted, softSettled := false, false;
      killStarted, killSettled, killFailed := false, false, false;
      capturedBytes, outputExceeded, chunks := 0, false, [];
      outputFailed := c.captureStdout && !stdoutExposed;
      timers := Timers(true, true, true);
    }

    method Settle(result: Result)
      modifies `settled, `promise, `timers
      ensures State() == Finish(old(State()), result)
    {
      if settled { return; }
      settled := true;
      timers := timers.Cancel(SoftTimer);
      timers := timers.Cancel(KillTimer);
      timers := timers.Cancel(HardTimer);
      promise := promise.Call(result, now);
    }

    method SettleTimedOutIfSettled()
      modifies `settled, `promise, `timers
      ensures State() == FinishTimedOutIfSettled(old(State()))
    {
      if !timedOut || !childClosed || !softStarted || !softSettled || !killStarted || !killSettled {
        return;
      }
      Settle(Rejected(TimedOut(killFailed, terminationFailed)));
    }

    method OnSoftTimer()
      modifies `timers, `timedOut, `softStarted
      ensures State() == FireTimer(old(State()), SoftTimer)
    {
      timers := timers.Cancel(SoftTimer);
      if settled { return; }
      timedOut := true;
      softStarted := true;
    }

    method OnKillTimer()
      modifies `timers, `timedOut, `killStarted
      ensures State() == FireTimer(old(State()), KillTimer)
    {
      timers := timers.Cancel(KillTimer);
      if settled { return; }
      timedOut := true;
      killStarted := true;
    }

    method OnHardTimer()
      modifies `settled, `promise, `timers, `timedOut
      ensures State() == FireTimer(old(State()), HardTimer)
    {
      timers := timers.Cancel(HardTimer);
      if settled { return; }
      timedOut := true;
      var unsafe := !childClosed || !softStarted || !softSettled || !killStarted || !killSettled || killFailed;
      Settle(Rejected(TimedOut(unsafe, terminationFailed)));
    }

    method OnSoftSettled(ok: bool)
      modifies `settled, `promise, `timers, `terminationFailed, `softSettled
      ensures State() == SignalSettles(old(State()), ok, false)
    {
      if !ok && !terminationFailed { terminationFailed := true; }
      softSettled := true;
      SettleTimedOutIfSettled();
    }

    method OnKillSettled(ok: bool)
      modifies `settled, `promise, `timers, `terminationFailed, `killSettled, `killFailed
      ensures State() == SignalSettles(old(State()), ok, true)
    {
      if !ok && !terminationFailed { terminationFailed := true; }
      killSettled := true;
      killFailed := !ok;
      SettleTimedOutIfSettled();
    }

    method OnData(chunk: Bytes)
      modifies `capturedBytes, `outputExceeded, `chunks
      ensures State() == ReceiveData(command, old(State()), chunk)
    {
      capturedBytes := capturedBytes + |chunk|;
      if capturedBytes > command.maxOutputBytes {
        outputExceeded := true;
        return;
      }
      chunks := chunks + [chunk];
    }

    method OnStdoutError()
      modifies `outputFailed
      ensures State() == StdoutError(old(State()))
    {
      outputFailed := true;
    }

    method OnChildError()
      modifies `settled, `promise, `timers, `terminationFailed, `errorSeen
      ensures State() == ChildError(old(State()))
    {
      errorSeen := true;
      if timedOut {
        terminationFailed := true;
        return;
      }
      Settle(Rejected(ChildFailed));
    }

    method OnChildClose(exit: Exit)
      modifies `settled, `promise, `timers, `childClosed
      ensures State() == Close(command, old(State()), exit)
    {
      hide FinishTimedOutIfSettled, Concat;
      childClosed := true;
      if timedOut {
        SettleTimedOutIfSettled();
        return;
      }
      if exit != Code(0) {
        Settle(Rejected(ExitFailed(exit, exit == Code(CLEANUP_UNSAFE_EXIT_CODE))));
        return;
      }
      if outputFailed {
        Settle(Rejected(CaptureFailed));
        return;
      }
      if outputExceeded {
        Settle(Rejected(CaptureExceeded));
        return;
      }
      Settle(Resolved(if command.captureStdout then Some(Concat(chunks)) else None));
    }

    /** The event loop calls back for one event. */
    method Handle(e: Event)
      requires Enabled(command, State(), e)
      modifies this
      ensures State() == Step(command, old(State()), e)
    {
      match e {
        case Advance(time) => now := time;
        case Fire(timer) => OnTimer(timer);
        case SoftSettles(ok) => OnSoftSettled(ok);
        case KillSettles(ok) => OnKillSettled(ok);
        case Data(chunk) => OnData(chunk);
        case StdoutFails => OnStdoutError();
        case ChildErrs => OnChildError();
        case ChildCloses(exit) => OnChildClose(exit);
      }
    }

    method OnTimer(timer: TimerKind)
      modifies this
      ensures State() == FireTimer(old(State()), timer)
    {
      match timer {
        case SoftTimer => OnSoftTimer();
        case KillTimer => OnKillTimer();
        case HardTimer => OnHardTimer();
      }
    }
  }

  datatype Refusal = BoundRejected | SpawnFailed

  /** One call: refused at once, or a supervised child. */
  method RunCommand(c: Command, spawns: bool, stdoutExposed: bool)
    returns (refusal: Option<Refusal>, run: CommandRun?)
    ensures refusal == if !c.BoundAccepted() then Some(BoundRejected)
                       else if !spawns then Some(SpawnFailed)
                       else None
    ensures refusal == None <==> run != null
    ensures run != null ==> fresh(run) && run.command == c && run.State() == Spawned(c, stdoutExposed)
  {
    if c.captureStdout && c.maxOutputBytes < 1 { return Some(BoundRejected), null; }
    if !spawns { return Some(SpawnFailed), null; }
    run := new CommandRun(c, stdoutExposed);
    refusal := None;
  }
}
