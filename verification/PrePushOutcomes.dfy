/** What each process of the pre-push lock is told, and what the receipt holds, in every run. */
module PrePushOutcomes {
  import opened Options
  import opened PrePushLock

  /** What an event tells the process it is about, if that ends its attempt: the receipt has its
      key, a live owner has the lock, a second stale lock was in the way, or the verification is
      over and released. */
  function Told(es: seq<Event>, s: State, e: Event): Option<Result>
    requires Enabled(s, e)
  {
    match e
    case CheckReceipt(p) => if s.receipt == Some(s.processes[p].key) then Some(Cached) else None
    case Inspect(p) =>
      if s.lock.Written? && s.lock.creator in s.processes && s.processes[s.lock.creator].phase != Dead
      then Some(Busy(s.lock.creator)) else None
    case RemoveStale(p) => if RemoveStale(p) in es then Some(Failed) else None
    case ReadForRelease(p) =>
      if s.lock.Written? && s.lock.file == s.processes[p].phase.file then None
      else Some(Finished(Complete(p, true) in es))
    case RemoveOwn(p) => Some(Finished(Complete(p, true) in es))
    case _ => None
  }

  predicate ToldNow(es: seq<Event>, s: State, e: Event, p: Pid, result: Result) {
    Enabled(s, e) && e.pid == p && Told(es, s, e) == Some(result)
  }

  ghost predicate ToldAt(es: seq<Event>, i: nat, p: Pid, result: Result) {
    i < |es| && Before(es, i).Some? && ToldNow(es[..i], Before(es, i).value, es[i], p, result)
  }

  ghost predicate EverTold(es: seq<Event>, p: Pid, result: Result) {
    exists i :: ToldAt(es, i, p, result)
  }

  function Removals(es: seq<Event>, p: Pid): nat {
    if RemoveStale(p) in es then 1 else 0
  }

  /** What the phase of a process says of the events behind it. */
  predicate PhaseKnows(es: seq<Event>, phase: Phase, p: Pid) {
    match phase
    case Checking => Removals(es, p) == 0 && Complete(p, true) !in es
    case Creating(n) => n == Removals(es, p) && Complete(p, true) !in es
    case Opened(n, _) => Complete(p, true) !in es
    case Inspecting(n) => n == Removals(es, p) && Complete(p, true) !in es
    case Condemning(n) => n == Removals(es, p) && Complete(p, true) !in es
    case Verifying(_) => Complete(p, true) !in es
    case Completing(_) => Complete(p, true) !in es
    case Releasing(_, passed) => passed <==> Complete(p, true) in es
    case Removing(_, passed) => passed <==> Complete(p, true) in es
    case _ => true
  }

  predicate Knows(es: seq<Event>, s: State, p: Pid) {
    if p in s.processes then
      PhaseKnows(es, s.processes[p].phase, p) && (s.processes[p].phase == Dead <==> Crash(p) in es)
    else
      forall e <- es :: e.pid != p
  }

  lemma KnowsStep(es: seq<Event>, s: State, e: Event, p: Pid)
    requires Enabled(s, e) && Knows(es, s, p)
    ensures Knows(es + [e], Step(s, e), p)
  {
    ProcessUpdate(s, Step(s, e), e);
    assert forall f :: f in es + [e] <==> f in es || f == e;
  }

  lemma {:induction false} ExecKnows(es: seq<Event>, p: Pid)
    requires Exec(es).Some?
    ensures Knows(es, Exec(es).value, p)
  {
    if es != [] {
      var front, e := es[..|es| - 1], es[|es| - 1];
      ExecKnows(front, p);
      KnowsStep(front, Exec(front).value, e, p);
      assert front + [e] == es;
    }
  }

  lemma ToldStep(es: seq<Event>, s: State, e: Event, p: Pid, result: Result)
    requires Enabled(s, e) && Knows(es, s, p)
    ensures In(Step(s, e), p, Returned(result)) <==>
              (In(s, p, Returned(result)) && e != Crash(p)) || ToldNow(es, s, e, p, result)
  {
    ProcessUpdate(s, Step(s, e), e);
  }

  lemma ToldFront(es: seq<Event>, i: nat, p: Pid, result: Result)
    requires i < |es| - 1
    ensures ToldAt(es, i, p, result) <==> ToldAt(es[..|es| - 1], i, p, result)
  {
    assert es[..|es| - 1][..i] == es[..i];
  }

  lemma ToldLast(es: seq<Event>, p: Pid, result: Result)
    requires es != [] && Exec(es).Some?
    ensures var n := |es| - 1;
            ToldAt(es, n, p, result) <==> ToldNow(es[..n], Exec(es[..n]).value, es[n], p, result)
  {
  }

  lemma ToldSnoc(es: seq<Event>, p: Pid, result: Result)
    requires es != [] && Exec(es).Some?
    ensures var n := |es| - 1;
            EverTold(es, p, result) <==>
              EverTold(es[..n], p, result) || ToldNow(es[..n], Exec(es[..n]).value, es[n], p, result)
  {
    var n := |es| - 1;
    ToldLast(es, p, result);
    assert forall i: nat :: ToldAt(es, i, p, result) ==> i <= n;
    assert forall i: nat :: ToldAt(es[..n], i, p, result) ==> i < n;
    hide ToldAt, ToldNow, Exec;
    if EverTold(es, p, result) {
      var i: nat :| ToldAt(es, i, p, result);
      if i < n {
        ToldFront(es, i, p, result);
      }
    }
    if EverTold(es[..n], p, result) {
      var i: nat :| ToldAt(es[..n], i, p, result);
      ToldFront(es, i, p, result);
    }
  }

  /** In every run, clean or not, a process that has not crashed since is told a result exactly
      when an event told it so. */
  lemma {:induction false} ToldIff(es: seq<Event>, p: Pid, result: Result)
    requires Exec(es).Some?
    ensures In(Exec(es).value, p, Returned(result)) <==> EverTold(es, p, result) && Crash(p) !in es
  {
    if es == [] {
      assert forall i: nat :: !ToldAt(es, i, p, result);
    } else {
      var front, e := es[..|es| - 1], es[|es| - 1];
      ToldIff(front, p, result);
      ExecKnows(front, p);
      ToldSnoc(es, p, result);
      ToldStep(front, Exec(front).value, e, p, result);
      assert front + [e] == es;
    }
  }

  // ---------- the receipt ----------

  /** The key of the last verification that was completed. */
  function LastCompleted(es: seq<Event>): Option<Key>
    requires Exec(es).Some?
  {
    if es == [] then None
    else
      var front, e := es[..|es| - 1], es[|es| - 1];
      if e.Complete? && e.renamed then Some(Exec(front).value.processes[e.pid].key) else LastCompleted(front)
  }

  /** The receipt is that of the last completed verification. */
  lemma {:induction false} ReceiptIsLast(es: seq<Event>)
    requires Exec(es).Some?
    ensures Exec(es).value.receipt == LastCompleted(es)
  {
    if es != [] {
      ReceiptIsLast(es[..|es| - 1]);
    }
  }
}
