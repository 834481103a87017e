/** The pre-push verification lock as interleaved steps of many processes. File creation
    and the write into it, and the inspection of a lock and its removal, are separate
    steps, as the file-system calls are. */
module PrePushLock {
  import opened Options

  type Pid = nat

  type Key = nat

  /** Names one created lock file. */
  type Token = nat

  /** What stands at the lock path: nothing, a file just created, or a file with its owner. */
  datatype LockPath =
    | NoFile
    | Empty(creator: Pid, file: Token)
    | Written(creator: Pid, file: Token)

  datatype Result = Cached | Busy(owner: Pid) | Failed | Finished(passed: bool)

  datatype Phase =
    | Checking
    | Creating(attempt: nat)
    | Opened(attempt: nat, file: Token)
    | Inspecting(attempt: nat)
    | Condemning(attempt: nat)
    | Verifying(file: Token)
    | Completing(file: Token)
    | Releasing(file: Token, passed: bool)
    | Removing(file: Token, passed: bool)
    | Returned(result: Result)
    | Dead

  datatype Process = Process(key: Key, phase: Phase)

  datatype State = State(
    processes: map<Pid, Process>,
    lock: LockPath,
    receipt: Option<Key>,
    issued: Token
  )

  datatype Event =
    | Begin(pid: Pid, key: Key)
    | CheckReceipt(pid: Pid)
    | Create(pid: Pid)
    | Write(pid: Pid)
    | Inspect(pid: Pid)
    | RemoveStale(pid: Pid)
    | Finish(pid: Pid, passed: bool)
    | Complete(pid: Pid, renamed: bool)
    | ReadForRelease(pid: Pid)
    | RemoveOwn(pid: Pid)
    | Crash(pid: Pid)

  const START := State(map[], NoFile, None, 0)

  predicate Alive(s: State, pid: Pid) {
    pid in s.processes && s.processes[pid].phase != Dead
  }

  predicate In(s: State, pid: Pid, phase: Phase) {
    pid in s.processes && s.processes[pid].phase == phase
  }

  function To(s: State, pid: Pid, phase: Phase): State
    requires pid in s.processes
  {
    s.(processes := s.processes[pid := s.processes[pid].(phase := phase)])
  }

  /** A process id is used once; each process takes the steps of the script in order. */
  predicate Enabled(s: State, e: Event) {
    if e.Begin? then e.pid !in s.processes
    else
      && e.pid in s.processes
      && var phase := s.processes[e.pid].phase;
         match e
         case CheckReceipt(_) => phase.Checking?
         case Create(_) => phase.Creating?
         case Write(_) => phase.Opened?
         case Inspect(_) => phase.Inspecting?
         case RemoveStale(_) => phase.Condemning?
         case Finish(_, _) => phase.Verifying?
         case Complete(_, _) => phase.Completing?
         case ReadForRelease(_) => phase.Releasing?
         case RemoveOwn(_) => phase.Removing?
         case Crash(_) => phase != Dead
         case Begin(_, _) => true
  }

  /** Creation fails when a file is there; otherwise it leaves a file without content. */
  function CreateLock(s: State, pid: Pid, attempt: nat): State
    requires pid in s.processes
  {
    if s.lock.NoFile? then
      To(s.(lock := Empty(pid, s.issued), issued := s.issued + 1), pid, Opened(attempt, s.issued))
    else
      To(s, pid, Inspecting(attempt))
  }

  /** The content goes into the created file, wherever the path leads by then. */
  function WriteLock(s: State, pid: Pid, file: Token): State
    requires pid in s.processes
  {
    To(if s.lock == Empty(pid, file) then s.(lock := Written(pid, file)) else s, pid, Verifying(file))
  }

  /** A missing or unreadable lock, or one of a dead process, is to be removed. */
  function InspectLock(s: State, pid: Pid, attempt: nat): State
    requires pid in s.processes
  {
    if s.lock.Written? && Alive(s, s.lock.creator) then To(s, pid, Returned(Busy(s.lock.creator)))
    else To(s, pid, Condemning(attempt))
  }

  function RemoveStaleLock(s: State, pid: Pid, attempt: nat): State
    requires pid in s.processes
  {
    To(s.(lock := NoFile), pid, if attempt == 0 then Creating(1) else Returned(Failed))
  }

  function ReadOwner(s: State, pid: Pid, file: Token, passed: bool): State
    requires pid in s.processes
  {
    To(s, pid, if s.lock.Written? && s.lock.file == file then Removing(file, passed)
               else Returned(Finished(passed)))
  }

  function Step(s: State, e: Event): State
    requires Enabled(s, e)
  {
    match e
    case Begin(pid, key) => s.(processes := s.processes[pid := Process(key, Checking)])
    case CheckReceipt(pid) =>
      To(s, pid, if s.receipt == Some(s.processes[pid].key) then Returned(Cached) else Creating(0))
    case Create(pid) => CreateLock(s, pid, s.processes[pid].phase.attempt)
    case Write(pid) => WriteLock(s, pid, s.processes[pid].phase.file)
    case Inspect(pid) => InspectLock(s, pid, s.processes[pid].phase.attempt)
    case RemoveStale(pid) => RemoveStaleLock(s, pid, s.processes[pid].phase.attempt)
    case Finish(pid, passed) =>
      var file := s.processes[pid].phase.file;
      To(s, pid, if passed then Completing(file) else Releasing(file, false))
    case Complete(pid, renamed) =>
      To(if renamed then s.(receipt := Some(s.processes[pid].key)) else s,
         pid, Releasing(s.processes[pid].phase.file, renamed))
    case ReadForRelease(pid) => ReadOwner(s, pid, s.processes[pid].phase.file, s.processes[pid].phase.passed)
    case RemoveOwn(pid) => To(s.(lock := NoFile), pid, Returned(Finished(s.processes[pid].phase.passed)))
    case Crash(pid) => To(s, pid, Dead)
  }

  function Exec(es: seq<Event>): Option<State> {
    if es == [] then Some(START)
    else
      match Exec(es[..|es| - 1])
      case None => None
      case Some(s) => if Enabled(s, es[|es| - 1]) then Some(Step(s, es[|es| - 1])) else None
  }

  /** The process holds an acquired guard, and this is the file it created. */
  predicate Holds(s: State, pid: Pid) {
    && pid in s.processes
    && var phase := s.processes[pid].phase;
       phase.Verifying? || phase.Completing? || phase.Releasing? || phase.Removing?
  }

  // ---------- mutual exclusion ----------

  /** The lock is missing or was created by a process that is no longer alive. */
  predicate Stale(s: State) {
    s.lock.NoFile? || !Alive(s, s.lock.creator)
  }

  /** The path leads to the file of the process: empty while opened, then written. */
  predicate PathIsOwn(s: State, pid: Pid)
    requires pid in s.processes
  {
    var phase := s.processes[pid].phase;
    && (phase.Opened? ==> s.lock == Empty(pid, phase.file))
    && (Holds(s, pid) ==> s.lock == Written(pid, phase.file))
  }

  /** Every live process that created a lock still has it at the lock path. */
  ghost predicate Intact(s: State) {
    forall pid <- s.processes.Keys :: PathIsOwn(s, pid)
  }

  /** A lock of a live process belongs to what that process is doing. */
  predicate LockHasOwner(s: State) {
    !s.lock.NoFile? ==>
      && s.lock.creator in s.processes
      && var phase := s.processes[s.lock.creator].phase;
         phase == Dead
         || (s.lock.Empty? && phase.Opened? && phase.file == s.lock.file)
         || (s.lock.Written? && Holds(s, s.lock.creator) && phase.file == s.lock.file)
  }

  predicate CleanStep(s: State, e: Event) {
    e.RemoveStale? ==> Stale(s)
  }

  lemma ProcessUpdate(s: State, t: State, e: Event)
    requires Enabled(s, e) && t == Step(s, e)
    ensures t.processes.Keys == s.processes.Keys + {e.pid}
    ensures forall pid <- s.processes.Keys :: pid != e.pid ==> t.processes[pid] == s.processes[pid]
  {
  }

  /** One step keeps every live lock in place exactly when it does not remove a live one. */
  lemma IntactStep(s: State, e: Event)
    requires Intact(s) && LockHasOwner(s) && Enabled(s, e)
    ensures Intact(Step(s, e)) <==> CleanStep(s, e)
    ensures CleanStep(s, e) ==> LockHasOwner(Step(s, e))
  {
    var t := Step(s, e);
    ProcessUpdate(s, t, e);
    assert e.pid in s.processes ==> PathIsOwn(s, e.pid);
    if !CleanStep(s, e) {
      assert !PathIsOwn(t, s.lock.creator);
    } else {
      forall pid <- t.processes.Keys
        ensures PathIsOwn(t, pid)
      {
        if pid != e.pid {
          assert PathIsOwn(s, pid);
        }
      }
    }
  }

  // ---------- whole runs ----------

  function Before(es: seq<Event>, i: nat): Option<State>
    requires i <= |es|
  {
    Exec(es[..i])
  }

  lemma {:induction false} PrefixRuns(es: seq<Event>, i: nat)
    requires i <= |es| && Exec(es).Some?
    ensures Before(es, i).Some?
    ensures i < |es| ==>
              Enabled(Before(es, i).value, es[i]) && Before(es, i + 1) == Some(Step(Before(es, i).value, es[i]))
    decreases |es|
  {
    if i == |es| {
      assert es[..i] == es;
    } else {
      var front := es[..|es| - 1];
      assert front[..i] == es[..i];
      if i + 1 < |es| {
        PrefixRuns(front, i);
        assert front[..i + 1] == es[..i + 1] && front[i] == es[i];
      } else {
        assert es[..i + 1] == es && front == es[..i];
      }
    }
  }

  /** No stale removal in the run removes the lock of a live process. */
  ghost predicate Clean(es: seq<Event>) {
    forall i :: 0 <= i < |es| ==> Before(es, i).Some? && CleanStep(Before(es, i).value, es[i])
  }

  lemma CleanPrefix(es: seq<Event>)
    requires es != []
    ensures Clean(es) <==>
              && Clean(es[..|es| - 1]) && Exec(es[..|es| - 1]).Some?
              && CleanStep(Exec(es[..|es| - 1]).value, es[|es| - 1])
  {
    var front := es[..|es| - 1];
    assert forall i :: 0 <= i < |front| ==> front[..i] == es[..i] && front[i] == es[i];
    assert es[..|es| - 1] == front;
    if Clean(es) {
      forall i | 0 <= i < |front|
        ensures Before(front, i).Some? && CleanStep(Before(front, i).value, front[i])
      {
        assert Before(es, i).Some?;
      }
      assert Before(es, |es| - 1).Some?;
    }
  }

  lemma {:induction false} CleanRunsStayIntact(es: seq<Event>)
    requires Exec(es).Some? && Clean(es)
    ensures Intact(Exec(es).value) && LockHasOwner(Exec(es).value)
  {
    if es != [] {
      var front := es[..|es| - 1];
      CleanPrefix(es);
      CleanRunsStayIntact(front);
      IntactStep(Exec(front).value, es[|es| - 1]);
    }
  }

  /** In every run whose stale removals only hit stale locks, at most one live process
      holds the guard, and the lock names it. */
  lemma MutualExclusion(es: seq<Event>, p: Pid, q: Pid)
    requires Exec(es).Some? && Clean(es)
    requires Holds(Exec(es).value, p) && Holds(Exec(es).value, q)
    ensures p == q && Exec(es).value.lock == Written(p, Exec(es).value.processes[p].phase.file)
  {
    CleanRunsStayIntact(es);
    var s := Exec(es).value;
    assert PathIsOwn(s, p) && PathIsOwn(s, q);
  }

  /** Release removes the process's own lock and no other. */
  lemma ReleaseRemovesOwn(es: seq<Event>, p: Pid)
    requires Exec(es).Some? && Clean(es) && Enabled(Exec(es).value, RemoveOwn(p))
    ensures Exec(es).value.lock == Written(p, Exec(es).value.processes[p].phase.file)
  {
    MutualExclusion(es, p, p);
  }

  /** The guarantee holds in exactly these runs: a run keeps the lock of every live process
      in place at all times if and only if it is clean. */
  lemma {:induction false} IntactIffClean(es: seq<Event>)
    requires Exec(es).Some?
    ensures Clean(es) <==> forall i :: 0 <= i <= |es| ==> Before(es, i).Some? && Intact(Before(es, i).value)
  {
    if es == [] {
      assert Before(es, 0) == Some(START);
    } else {
      var front := es[..|es| - 1];
      IntactIffClean(front);
      CleanPrefix(es);
      assert forall i :: 0 <= i <= |front| ==> front[..i] == es[..i];
      assert es[..|es|] == es;
      if Clean(front) {
        CleanRunsStayIntact(front);
        IntactStep(Exec(front).value, es[|es| - 1]);
      }
      if forall i :: 0 <= i <= |es| ==> Before(es, i).Some? && Intact(Before(es, i).value) {
        forall i | 0 <= i <= |front|
          ensures Before(front, i).Some? && Intact(Before(front, i).value)
        {
          assert Before(es, i).Some?;
        }
        assert Before(es, |es|).Some?;
      }
      if Clean(es) {
        forall i | 0 <= i <= |es|
          ensures Before(es, i).Some? && Intact(Before(es, i).value)
        {
          if i < |es| {
            assert Before(front, i).Some?;
          }
        }
      }
    }
  }

  // ---------- granularity ----------

  predicate MidAction(s: State, pid: Pid) {
    pid in s.processes && (s.processes[pid].phase.Opened? || s.processes[pid].phase.Condemning?)
  }

  /** Nobody else moves between a creation and its write, nor between an inspection that
      condemns a lock and its removal. */
  predicate Undisturbed(s: State, e: Event) {
    forall pid <- s.processes.Keys :: MidAction(s, pid) ==> e.pid == pid
  }

  ghost predicate Atomic(es: seq<Event>) {
    forall i :: 0 <= i < |es| ==> Before(es, i).Some? && Undisturbed(Before(es, i).value, es[i])
  }

  ghost predicate CondemnedIsStale(s: State) {
    forall pid <- s.processes.Keys :: s.processes[pid].phase.Condemning? ==> Stale(s)
  }

  lemma AtomicStep(s: State, e: Event)
    requires Intact(s) && LockHasOwner(s) && CondemnedIsStale(s) && Enabled(s, e) && Undisturbed(s, e)
    ensures CleanStep(s, e) && CondemnedIsStale(Step(s, e))
  {
    var t := Step(s, e);
    ProcessUpdate(s, t, e);
    assert s.lock.Empty? && Alive(s, s.lock.creator) ==> MidAction(s, s.lock.creator);
    if e.RemoveStale? {
      assert s.processes[e.pid].phase.Condemning?;
    }
    forall pid <- t.processes.Keys | t.processes[pid].phase.Condemning?
      ensures Stale(t)
    {
      if pid != e.pid {
        assert MidAction(s, pid);
      }
    }
  }

  lemma {:induction false} AtomicRunsInv(es: seq<Event>)
    requires Exec(es).Some? && Atomic(es)
    ensures Clean(es) && CondemnedIsStale(Exec(es).value)
  {
    if es != [] {
      var front := es[..|es| - 1];
      assert forall i :: 0 <= i < |front| ==> front[..i] == es[..i] && front[i] == es[i];
      forall i | 0 <= i < |front|
        ensures Before(front, i).Some? && Undisturbed(Before(front, i).value, front[i])
      {
        assert Before(es, i).Some?;
      }
      AtomicRunsInv(front);
      CleanRunsStayIntact(front);
      assert Before(es, |es| - 1).Some? && Undisturbed(Before(es, |es| - 1).value, es[|es| - 1]);
      AtomicStep(Exec(front).value, es[|es| - 1]);
      CleanPrefix(es);
    }
  }

  /** If creating and writing, and inspecting and removing, are never interleaved with
      another process, at most one live process holds the guard. */
  lemma AtomicRunsExclude(es: seq<Event>, p: Pid, q: Pid)
    requires Exec(es).Some? && Atomic(es)
    requires Holds(Exec(es).value, p) && Holds(Exec(es).value, q)
    ensures p == q
  {
    AtomicRunsInv(es);
    MutualExclusion(es, p, q);
  }

  /** And then a release removes the process's own lock and no other. */
  lemma AtomicReleaseRemovesOwn(es: seq<Event>, p: Pid)
    requires Exec(es).Some? && Atomic(es) && Enabled(Exec(es).value, RemoveOwn(p))
    ensures Exec(es).value.lock == Written(p, Exec(es).value.processes[p].phase.file)
  {
    AtomicRunsInv(es);
    ReleaseRemovesOwn(es, p);
  }

  lemma Extend(es: seq<Event>, e: Event)
    requires Exec(es).Some? && Enabled(Exec(es).value, e)
    ensures Exec(es + [e]) == Some(Step(Exec(es).value, e))
  {
    assert (es + [e])[..|es|] == es;
  }

  /** Where they are interleaved, two live processes can both hold the guard: the second
      reads the file before the first has written into it. */
  lemma InterleavedStepsCanRace()
    ensures exists es, p, q ::
              Exec(es).Some? && p != q && Holds(Exec(es).value, p) && Holds(Exec(es).value, q)
  {
    var es := FirstOpensSecondCondemns();
    Extend(es, RemoveStale(2));
    es := es + [RemoveStale(2)];
    Extend(es, Write(1));
    es := es + [Write(1)];
    Extend(es, Create(2));
    es := es + [Create(2)];
    Extend(es, Write(2));
    es := es + [Write(2)];
    assert Holds(Exec(es).value, 1) && Holds(Exec(es).value, 2);
  }

  lemma FirstOpensSecondCondemns() returns (es: seq<Event>)
    ensures Exec(es).Some?
    ensures var s := Exec(es).value;
            && s.processes.Keys == {1, 2} && s.lock == Empty(1, 0)
            && s.processes[1].phase == Opened(0, 0) && s.processes[2].phase == Condemning(0)
  {
    es := [];
    Extend(es, Begin(1, 7));
    es := es + [Begin(1, 7)];
    Extend(es, CheckReceipt(1));
    es := es + [CheckReceipt(1)];
    Extend(es, Create(1));
    es := es + [Create(1)];
    Extend(es, Begin(2, 7));
    es := es + [Begin(2, 7)];
    Extend(es, CheckReceipt(2));
    es := es + [CheckReceipt(2)];
    Extend(es, Create(2));
    es := es + [Create(2)];
    Extend(es, Inspect(2));
    es := es + [Inspect(2)];
  }

  // ---------- receipts ----------

  /** At event i, some process finished its verification of this key with result 0. */
  ghost predicate VerifiedAt(es: seq<Event>, i: nat, key: Key) {
    && i < |es| && es[i].Finish? && es[i].passed
    && Before(es, i).Some? && es[i].pid in Before(es, i).value.processes
    && Before(es, i).value.processes[es[i].pid].key == key
  }

  ghost predicate Verified(es: seq<Event>, key: Key) {
    exists i :: VerifiedAt(es, i, key)
  }

  ghost predicate ReceiptsInv(es: seq<Event>, s: State) {
    && (s.receipt.Some? ==> Verified(es, s.receipt.value))
    && forall pid <- s.processes.Keys ::
         s.processes[pid].phase.Completing? || s.processes[pid].phase == Returned(Cached) ==>
           Verified(es, s.processes[pid].key)
  }

  lemma VerifiedLater(front: seq<Event>, es: seq<Event>, key: Key)
    requires |front| + 1 == |es| && front == es[..|front|] && Verified(front, key)
    ensures Verified(es, key)
  {
    var i: nat :| VerifiedAt(front, i, key);
    assert front[..i] == es[..i];
    assert VerifiedAt(es, i, key);
  }

  lemma {:induction false} ReceiptsHold(es: seq<Event>)
    requires Exec(es).Some?
    ensures ReceiptsInv(es, Exec(es).value)
  {
    if es != [] {
      var n := |es| - 1;
      var front, e := es[..n], es[n];
      var s, t := Exec(front).value, Exec(es).value;
      ReceiptsHold(front);
      ProcessUpdate(s, t, e);
      forall key | Verified(front, key) {
        VerifiedLater(front, es, key);
      }
      if e.Finish? && e.passed {
        assert VerifiedAt(es, n, s.processes[e.pid].key);
      }
    }
  }

  /** A process is told "cached" only if some earlier run with the same key finished with
      result 0, in every run, clean or not. */
  lemma CachedMeansVerified(es: seq<Event>, p: Pid)
    requires Exec(es).Some? && In(Exec(es).value, p, Returned(Cached))
    ensures Verified(es, Exec(es).value.processes[p].key)
  {
    ReceiptsHold(es);
  }
}
